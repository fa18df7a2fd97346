/**
 * The logger's wiring in src/utils/logger.ts: the transport table the
 * logger is created with, the console transport added in development, and
 * the `stream` adapter through which HTTP request lines reach the logger.
 *
 * Transports are recorded as data (where they write and at which level);
 * writing to them is not part of this model.
 */
module Transports {
  import opened Wrappers
  import Strings

  /** The logging levels in use: the configured levels and `http`. */
  datatype Level = Error | Warn | Info | Http | Debug

  /** The levels `LOG_LEVEL` may be set to: every level but `http`. */
  type ConfiguredLevel = l: Level | l != Http witness Info

  /** The configured `NODE_ENV`. */
  datatype Environment = Development | Production | Test

  /** Where a transport writes. */
  datatype Sink = File(path: string) | ConsoleSink

  /** A transport; `level` is `None` when the transport takes the logger's level. */
  datatype Transport = Transport(sink: Sink, level: Option<Level>)

  /** `logs/error.log`, for error-level entries only. */
  const ErrorLog := Transport(File("logs/error.log"), Some(Error))

  /** `logs/combined.log`, at the logger's level. */
  const CombinedLog := Transport(File("logs/combined.log"), None)

  const ExceptionLog := Transport(File("logs/exceptions.log"), None)

  const RejectionLog := Transport(File("logs/rejections.log"), None)

  /** The transports the logger is created with. */
  const FileTransports: seq<Transport> := [ErrorLog, CombinedLog]

  /** The transports present once the module has run, for a configured level and environment. */
  function ConfiguredTransports(level: ConfiguredLevel, env: Environment): (ts: seq<Transport>)
    ensures |ts| == if env == Development then 3 else 2
    ensures ts[..2] == FileTransports
  {
    FileTransports + (if env == Development then [Transport(ConsoleSink, Some(level))] else [])
  }

  /**
   * A console transport is present exactly in development, and then it runs
   * at the configured level; the error log is the only transport restricted
   * to errors whatever the configured level.
   */
  lemma ConsoleOnlyInDevelopment(level: ConfiguredLevel, env: Environment)
    ensures (exists i :: 0 <= i < |ConfiguredTransports(level, env)| && ConfiguredTransports(level, env)[i].sink.ConsoleSink?)
            <==> env == Development
    ensures forall i :: 0 <= i < |ConfiguredTransports(level, env)| && ConfiguredTransports(level, env)[i].sink.ConsoleSink? ==>
              ConfiguredTransports(level, env)[i].level == Some(level)
  {
    var ts := ConfiguredTransports(level, env);
    if env == Development {
      assert ts[2].sink.ConsoleSink?;
    }
  }

  /** The `winston` logger: its level and its transport and handler lists. */
  class Logger {
    var level: ConfiguredLevel
    var transports: seq<Transport>
    var exceptionHandlers: seq<Transport>
    var rejectionHandlers: seq<Transport>

    /** `winston.createLogger` with the file transports and handlers. */
    constructor (level: ConfiguredLevel)
      ensures this.level == level
      ensures transports == FileTransports
      ensures exceptionHandlers == [ExceptionLog] && rejectionHandlers == [RejectionLog]
    {
      this.level := level;
      transports := FileTransports;
      exceptionHandlers := [ExceptionLog];
      rejectionHandlers := [RejectionLog];
    }

    /** `logger.add(transport)`: the transport joins the end of the list; nothing else changes. */
    method Add(t: Transport)
      modifies this
      ensures transports == old(transports) + [t]
      ensures level == old(level)
      ensures exceptionHandlers == old(exceptionHandlers) && rejectionHandlers == old(rejectionHandlers)
    {
      transports := transports + [t];
    }
  }

  /** The module's set-up: create the logger, then add the console transport in development. */
  method CreateLogger(level: ConfiguredLevel, env: Environment) returns (logger: Logger)
    ensures fresh(logger)
    ensures logger.level == level
    ensures logger.transports == ConfiguredTransports(level, env)
    ensures logger.exceptionHandlers == [ExceptionLog] && logger.rejectionHandlers == [RejectionLog]
  {
    logger := new Logger(level);
    if env == Development {
      logger.Add(Transport(ConsoleSink, Some(level)));
    }
  }

  // ---------------------------------------------------------------------------
  // stream.write
  // ---------------------------------------------------------------------------

  /** A call into the logger: the level method called and the message passed. */
  datatype LogCall = LogCall(level: Level, message: string)

  /**
   * `stream.write(message)`: the message without its surrounding white
   * space, logged at `http` level. What is forwarded is the part of the
   * message between a white-space prefix and a white-space suffix, and it
   * neither starts nor ends with white space.
   */
  function StreamWrite(message: string): (c: LogCall)
    ensures c.level == Http
    ensures Strings.IsTrimmed(c.message)
    ensures exists i, j :: 0 <= i <= j <= |message| && c.message == message[i..j] &&
              Strings.AllSpace(message[..i]) && Strings.AllSpace(message[j..])
  {
    var t := Strings.Trim(message);
    var i, j := Strings.Lead(message), Strings.Lead(message) + |t|;
    assert t == message[i..j] && Strings.AllSpace(message[..i]) && Strings.AllSpace(message[j..]);
    LogCall(Http, t)
  }

  /** Writing a line that the adapter has already trimmed forwards the same call. */
  lemma StreamWriteIdempotent(message: string)
    ensures StreamWrite(StreamWrite(message).message) == StreamWrite(message)
  {
    Strings.TrimIdempotent(message);
  }

  /**
   * Any split of the message into white space, a middle that neither starts
   * nor ends with white space, and white space forwards that middle.
   */
  lemma StreamWriteForwardsMiddle(message: string, i: nat, j: nat)
    requires i <= j <= |message|
    requires Strings.AllSpace(message[..i]) && Strings.AllSpace(message[j..]) && Strings.IsTrimmed(message[i..j])
    ensures StreamWrite(message).message == message[i..j]
  {
    Strings.TrimUnique(message, i, j);
  }
}
