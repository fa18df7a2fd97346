# Error taxonomy and log pipeline

A Dafny model of the service's error taxonomy (`src/types/errors.ts`) and of
the logger built on it (`src/utils/logger.ts`).

- **Taxonomy.** `HttpStatus` and `ErrorCode` are modelled as enumerations.
  The status table has a reverse lookup (`HttpStatus[n]`). `AppError` is a
  record, and its seven subclasses are the `ErrorKind` datatype, each pinning a
  code, a status and an optional default message. `toJSON` projects an error to
  an `ErrorResponse`.
- **Log entry.** A log entry (winston's `info`) is a map from property keys to
  JavaScript values (`Errors.Value`). An error object is a value. Numbers are
  integers.
- **Record formats** (`LogFormats`):
  - `errorReplacer` is modelled as a function.
  - `extractNestedError` and `enhanceErrorMetadata` are methods of the class
    `LogInfo`. They update its `entry` in place and are proved equal to the
    functions `Extracted` and `Enhanced` of the old entry.
  - `enhanceErrorMetadata` is one step method per stage: the correlation-id
    lift, the request lift, then the category, the severity and the timestamp
    behind the classifier's gate.
  - Lemmas state what each format keeps and changes ("frame" lemmas), the
    classification tables, and idempotence.
- **Console renderer** (`Console`):
  - `printf` is the method `Render`, which appends to `output` in the source's
    order. It is proved equal to the function `ConsoleLine`.
  - Lemmas give the layout of a line (summary, optional blocks in a fixed
    order, the Metadata block), when rendering throws, and what the console
    pipeline (`enhanceErrorMetadata`, then `extractNestedError`, then `printf`)
    prints.
- **Wiring** (`Transports`):
  - the transports the logger is created with, and the console transport added
    in development (the class `Logger` with `Add`);
  - the `stream.write` adapter, which forwards the trimmed line at `http` level.
- **JavaScript built-ins** (`Strings`): `trim`,
  `split('\n').slice(1).join('\n')` and the decimal text of a number. They are
  modelled as far as the logger uses them.

The clock reading (`new Date().toISOString()`), the captured stack and the JSON
pretty-printer (`JSON.stringify(v, null, 2)`) are parameters: `now`, `stack` and
`pretty`.

Three behaviours of the code are worth stating outright:

- **Partial request objects.** The request lift copies a truthy
  `metadata.request` as `{method, url, ip, userAgent}`. A missing field becomes
  `undefined`; a partial request is copied, not dropped
  (`LogFormats.EnhanceLiftsRequest`).
- **A nested `error` alone.** An entry whose only error information is a nested
  `error` passes the classifier's gate, but it gets no category. Its severity is
  'error', whatever its error's status is, because the classifier reads only the
  entry's own `type`, `code` and `status` (`Console.PipelineOrderMatters`,
  `LogFormats.EnhanceClassifies`).
- **When the console transport exists.** It is added only when `NODE_ENV` is
  `development`; in `test` there is none either
  (`Transports.ConsoleOnlyInDevelopment`).

Nothing in `src/utils/logger.ts` sets an entry's `type`: the replacer runs
only inside JSON serialization. (winston copies an error's own enumerable
properties into the entry, which for an `AppError` includes `code` and
`status`, but never `type` or `statusText`.) The lemmas that start from an entry
spread with an `AppError`'s replacer record (`Console.SpreadRecord`,
`Console.AppErrorSummary`, `Console.AppErrorEntryThroughPipeline`,
`Console.KindErrorSummary`, `LogFormats.AppErrorRecordClassified`,
`LogFormats.KindSeverityFollowsCodeGroup`) describe a caller that supplies
those fields itself, as in `logger.error(msg, { type: 'AppError', code, status })`.

## Model

| member | source | states |
|---|---|---|
| Errors.StatusCode | src/types/errors.ts:4-14 | every status member's value is an HTTP status between 200 and 599 |
| Errors.StatusByCode | src/types/errors.ts:4-14 | the reverse lookup `HttpStatus[n]` yields a member with value `n`, and yields nothing exactly when no member has value `n` |
| Errors.StatusCodeInjective | src/types/errors.ts:4-14 | the status values are pairwise distinct |
| Errors.StatusByCodeRoundTrip | src/types/errors.ts:4-14 | the reverse lookup of a member's value gives back that member |
| Errors.CodeNamed | src/types/errors.ts:19-31 | the code whose string value is `s`, found exactly when some code has that value |
| Errors.CodeStringInjective | src/types/errors.ts:19-31 | the code strings (each its member's own name) are pairwise distinct |
| Errors.CodeNamedRoundTrip | src/types/errors.ts:19-31 | every code is recovered from its string value |
| Errors.KindOfCodeInverse | src/types/errors.ts:85-145 | each subclass pins its own code, and `INTERNAL_ERROR` is the one code no subclass pins |
| Errors.KindStatusMatchesCodeGroup | src/types/errors.ts:19-31 | a subclass's code is in the client group exactly when its status is 4xx, and otherwise its status is 5xx |
| Errors.KeyOf | src/utils/logger.ts:14-30 | the key chosen for any property name of a log entry or its metadata spells that name |
| Errors.KeyOfName | src/utils/logger.ts:14-30 | property names and keys correspond one to one: every key is the key of its own name, and two keys spelling the same name are equal, so an entry holds one value per property |
| Errors.Construct | src/types/errors.ts:54-69 | the constructor stores name, code, message, details, clock reading and stack unchanged, and the status defaults to 500 |
| Errors.NewAppError | src/types/errors.ts:54-69 | `new AppError(...)` is named 'AppError', and an omitted status is `INTERNAL_SERVER_ERROR` (500) |
| Errors.NewKindError | src/types/errors.ts:85-145 | a subclass instance is named after its class, carries the class's code and status, and gets the class's default message when none is passed; its code is never `INTERNAL_ERROR` |
| Errors.OnlyValidationNeedsMessage | src/types/errors.ts:85-137 | `ValidationError` is the only subclass without a default message |
| Errors.ToJSON | src/types/errors.ts:71-79 | `toJSON` returns the error's code, message, status, details and timestamp, and no `path` |
| Errors.ToJSONForgetsOnlyNameAndStack | src/types/errors.ts:71-79 | two errors have equal responses exactly when they differ at most in name and stack |
| Errors.KindErrorResponse | src/types/errors.ts:71-145 | a subclass instance's response carries the subclass's code and status, and both decode back to the subclass and the status |
| LogFormats.ErrorReplacer | src/utils/logger.ts:41-66 | an `AppError` becomes its nine-field record with type 'AppError'; any other error becomes its four-field record with type 'Error'; both carry the error's name, message and stack; every other value is returned unchanged |
| LogFormats.ReplacerReadsOwnProps | src/utils/logger.ts:41-66 | apart from `type` and `statusText`, every field of the replacer's record is the error's own property of that name, and every property outside the record reads as undefined |
| LogFormats.Prop | src/utils/logger.ts:91-99 | a property read on a primitive yields undefined, and on an object yields undefined unless the object has that key |
| LogFormats.ErrorProp | src/utils/logger.ts:44-63 | an error has no own property beyond name, message, stack and an `AppError`'s code, status, details and timestamp; a plain error has only the first three |
| LogFormats.ReplacerIdempotent | src/utils/logger.ts:41-66 | applying the replacer to its own result changes nothing |
| LogFormats.ReplacerAgreesWithToJSON | src/utils/logger.ts:42-54 | the replacer's `AppError` record decodes to the fields of `toJSON`, and its `statusText` is the status member's name |
| LogFormats.FalsyValues | src/utils/logger.ts:91-143 | the falsy values, which every `if (x)` and `!x` of the logger skips, are exactly undefined, null, false, 0 and the empty string |
| LogFormats.Show | src/utils/logger.ts:77 | `${v}` prints a string as itself, a number as decimal text that reads back as the number, and an error as `Error.prototype.toString` |
| LogFormats.ErrorToString | src/utils/logger.ts:77 | an error prints as `name: message`, or as whichever of the two is non-empty |
| LogFormats.ShowItemsIsJoin | src/utils/logger.ts:278-327 | an array prints as its elements' texts joined by commas, with undefined and null elements printed as nothing |
| LogFormats.RequestRecord | src/utils/logger.ts:97-99 | the request record has exactly the keys method, url, ip and userAgent, each read from the original request |
| LogFormats.LiftCorrelationIdStep | src/utils/logger.ts:91-94 | a truthy `metadata.correlationId` moves to the top level and leaves `metadata`; a falsy one changes nothing; no other key changes |
| LogFormats.LiftRequestStep | src/utils/logger.ts:97-101 | a truthy `metadata.request` becomes the top-level request record and leaves `metadata`; a falsy one changes nothing; no other key changes |
| LogFormats.ClassifyStep | src/utils/logger.ts:104-144 | behind the gate, the category follows the type and code, the severity follows the status thresholds and a truthy timestamp is kept; outside the gate the entry is unchanged; only the three keys can change |
| LogFormats.EnhanceFrame | src/utils/logger.ts:89-147 | `enhanceErrorMetadata` changes only correlationId, request, metadata, errorCategory, severity and timestamp; it keeps the gate's outcome and the rest of `metadata` |
| LogFormats.EnhanceLiftsCorrelationId | src/utils/logger.ts:91-94 | after the whole format, a truthy id is at the top level and gone from `metadata`; a falsy one is left where it was |
| LogFormats.EnhanceLiftsRequest | src/utils/logger.ts:97-101 | after the whole format, a truthy request is the four-field record and gone from `metadata`; a falsy one is left where it was |
| LogFormats.EnhanceClassifies | src/utils/logger.ts:104-144 | the category, severity and timestamp after the format, computed from the entry's own type, code, status and timestamp; untouched without the gate |
| LogFormats.SeverityThresholds | src/utils/logger.ts:129-138 | status 500 or more gives 'critical', 400 to 499 gives 'error', a missing or zero status gives 'error', and any other status sets nothing |
| LogFormats.CategoryOfCode | src/utils/logger.ts:106-123 | the category of each code: validation, security for both identity codes, database, external, and application for the rest and for any other value |
| LogFormats.CategoryNamed | src/utils/logger.ts:106-123 | every category is one of the five non-empty names |
| LogFormats.KindStatusRanked | src/utils/logger.ts:129-138 | every subclass's status is ranked 'error' for a client code and 'critical' for a server code |
| LogFormats.AppErrorRecordClassified | src/utils/logger.ts:104-138 | an entry carrying an `AppError`'s record is categorized by its code and ranked by its status |
| LogFormats.KindSeverityFollowsCodeGroup | src/utils/logger.ts:104-138 | for an entry carrying a subclass instance's record, severity is 'error' for a client code and 'critical' for a server code, and the category is the code's |
| LogFormats.ClassifyIdempotent | src/utils/logger.ts:104-144 | with a non-empty clock reading, classifying twice is classifying once, whatever the second reading is |
| LogFormats.EnhanceIdempotent | src/utils/logger.ts:89-147 | running `enhanceErrorMetadata` again changes nothing, whatever the second clock reading is |
| LogFormats.ExtractFrame | src/utils/logger.ts:75-82 | only for an error-valued `error`: the message becomes "message: error message", the stack is the error's and `error` is removed; nothing else changes; any other entry is returned as it is |
| LogFormats.ExtractIdempotent | src/utils/logger.ts:75-82 | extracting twice is extracting once |
| LogFormats.LogInfo.ExtractNestedError | src/utils/logger.ts:75-82 | the in-place format leaves the entry `Extracted(old entry)` |
| LogFormats.LogInfo.MoveCorrelationId | src/utils/logger.ts:91-94 | the in-place correlation-id lift |
| LogFormats.LogInfo.MoveRequest | src/utils/logger.ts:97-101 | the in-place request lift |
| LogFormats.LogInfo.AddCategory | src/utils/logger.ts:106-126 | the in-place category assignment and code `switch` |
| LogFormats.LogInfo.AddSeverity | src/utils/logger.ts:129-138 | the in-place severity assignment |
| LogFormats.LogInfo.AddTimestamp | src/utils/logger.ts:141-143 | a falsy timestamp is replaced by the clock reading in place |
| LogFormats.LogInfo.EnhanceErrorMetadata | src/utils/logger.ts:89-147 | the in-place format leaves the entry `Enhanced(old entry, now)` |
| Console.Residual | src/utils/logger.ts:261-275 | `...meta` holds exactly the entry's keys other than the thirteen named ones, with their values |
| Console.HasMethod | src/utils/logger.ts:308 | `'method' in request` throws exactly on a primitive (undefined, null, a boolean, a number or a string), tests the key on an object, and is false for an array or an error |
| Console.Render | src/utils/logger.ts:260-337 | the appends of `printf` produce `ConsoleLine(info)`, or throw exactly when it does |
| Console.AppendSummary | src/utils/logger.ts:285-305 | the summary appends after the header produce the summary line |
| Console.AppendErrorBlocks | src/utils/logger.ts:307-324 | the Request Context, Stack Trace and Details appends after the summary produce the body of an error line |
| Console.SummaryLayout | src/utils/logger.ts:278-305 | the summary line is the header followed by `[type]`, ` [category]`, ` [severity]`, for 'AppError' ` [code]` and ` [status statusText]`, then ` message` |
| Console.PlainLineLayout | src/utils/logger.ts:325-334 | a non-error entry prints the header, its message, then the Metadata block |
| Console.ErrorLineLayout | src/utils/logger.ts:285-334 | an error entry prints header, summary, Request Context, Stack Trace (first line dropped), Details and Metadata in that order, each only when present, or throws |
| Console.MetaBlockPresent | src/utils/logger.ts:331-334 | the Metadata block appears exactly when a key other than the named ones remains |
| Console.ConsoleThrows | src/utils/logger.ts:308 | rendering throws exactly for an error entry whose `request` is a truthy primitive |
| Console.PipelineOrderMatters | src/utils/logger.ts:258-259 | because the classifier runs before the extraction, an entry whose only error sign is a nested `error` is ranked 'error'; in the other order the classifier does not run, so the entry's own severity stays |
| Console.NestedErrorThroughPipeline | src/utils/logger.ts:258-259 | through the console formats, a nested error's message is appended to the entry's, the type is kept, and only `error` is lost outside the keys the formats write |
| Console.NestedErrorRendersPlain | src/utils/logger.ts:258-334 | an entry with a nested error and no error type prints as a plain line with the combined message |
| Console.NestedErrorResidual | src/utils/logger.ts:258-334 | after the console formats, the residual keys are the entry's own, apart from `error` and `metadata` |
| Console.AppErrorSummary | src/utils/logger.ts:285-305 | the summary of an 'AppError' entry with category, severity and status set |
| Console.SpreadRecord | src/utils/logger.ts:42-54 | spreading an `AppError`'s replacer record into an entry sets its type, code, message, status and statusText, and keeps `error` |
| Console.AppErrorEntryThroughPipeline | src/utils/logger.ts:258-259 | an 'AppError' entry keeps its own fields through the console formats and gains the category and severity of its code and status |
| Console.KindErrorSummary | src/utils/logger.ts:285-305 | a subclass instance's summary reads `[AppError] [category] [severity] [CODE] [status STATUS_NAME] message` |
| Transports.ConfiguredTransports | src/utils/logger.ts:202-253 | the logger always has the error and combined file transports first, plus a console transport in development only, at the configured level, which `LOG_LEVEL` allows to be anything but `http` |
| Transports.ConsoleOnlyInDevelopment | src/utils/logger.ts:229-253 | a console transport is present exactly in development, at the configured level |
| Transports.Logger.constructor | src/utils/logger.ts:202-227 | the logger starts with the two file transports and the exception and rejection logs |
| Transports.Logger.Add | src/utils/logger.ts:251-253 | `logger.add` appends the transport and changes nothing else |
| Transports.CreateLogger | src/utils/logger.ts:202-253 | the set-up leaves the logger with exactly the configured transports |
| Transports.StreamWrite | src/utils/logger.ts:358-362 | `stream.write` logs at `http` level the part of the line between a white-space prefix and suffix, and the result has no white space at either end |
| Transports.StreamWriteIdempotent | src/utils/logger.ts:358-362 | writing an already-forwarded line forwards the same call |
| Transports.StreamWriteForwardsMiddle | src/utils/logger.ts:358-362 | any split of the line into white space, a middle that neither starts nor ends with white space, and white space forwards that middle |
| Strings.Trim | src/utils/logger.ts:360 | `trim` leaves no white space at either end and removes only a white-space prefix and suffix |
| Strings.TrimUnique | src/utils/logger.ts:360 | `trim` is determined by that contract: any such split gives the same middle |
| Strings.TrimIdempotent | src/utils/logger.ts:360 | trimming twice is trimming once |
| Strings.Split | src/utils/logger.ts:318 | `split('\n')` gives at least one piece, and no piece contains the separator |
| Strings.SplitJoin | src/utils/logger.ts:318 | joining pieces that do not contain the separator and splitting the result gives back the pieces |
| Strings.JoinSplit | src/utils/logger.ts:318 | joining the pieces of a split with the same separator gives back the string |
| Strings.DropFirstLine | src/utils/logger.ts:318 | the stack text without its first line is everything after the first line break, or nothing for a single line |
| Strings.DigitsRoundTrip | src/utils/logger.ts:299 | the decimal digits printed for a natural number denote that number |
| Strings.DecimalRoundTrip | src/utils/logger.ts:299 | the text `${status}` prints for an integer is a sign and digits that read back as that integer |

## Left out

- Winston itself is not modelled: level filtering, writing to files and to the console, and the exception and rejection handlers. Only the transport table is recorded, as data.
- The `timestamp` and `errors({ stack: true })` formats of winston are not modelled, and neither is `defaultMeta` (`service`). The model starts from the entry they hand to the formats above.
- Colourization is not modelled: `addColors` and `colorize`, whose ANSI codes change the printed text.
- The JSON output of the file transports is not claimed end to end. Serialization may call `toJSON` on an `AppError` before the replacer sees it, so `errorReplacer` is modelled on its own.
- `JSON.stringify(v, null, 2)` is the parameter `pretty` and is not modelled.
- The clock (`new Date().toISOString()`) and `Error.captureStackTrace` are the parameters `now` and `stack`.
- Numbers are integers. Floating point is not modelled, and neither is JavaScript's coercion of non-numbers in `status >= 500`.
- LogFormats.SeverityOf: only numeric statuses are compared against the thresholds; a truthy non-number status sets no severity.
- On the console path the logger-level format (`timestamp`, `errors`, `enhanceErrorMetadata`, `json`) has already run on the entry before the console transport's own formats, so `enhanceErrorMetadata` runs twice, the second time on a copy whose shared `metadata` is already stripped. The model applies it once; `LogFormats.EnhanceIdempotent` shows the second run changes nothing once the timestamp is set.
- `info.metadata` is a value inside the entry: its deletions are not seen through other references to the same object.
- The key order of records and of `...meta` is not modelled (entries are maps), so the order of the keys in the printed Metadata block is not either.
- `path.join('logs', ...)` is written as a `logs/` path.
- Strings.Trim: the white-space set is the fixed list of ECMAScript WhiteSpace and LineTerminator code points, not the current Unicode "Space_Separator" category.
- `src/config/environment.ts` is not part of this model beyond the values of `LOG_LEVEL` and `NODE_ENV`. Nor are the HTTP layer, the health checks, the authentication middleware or the database seed.
