/** The values the wrapper passes around and the backend objects it builds.
    Loggers are shared, mutable objects (their level is set after
    construction), so they are a class; everything else is a value. */
module LogTypes {

  /** Severity, in the backend's order: Trace is the lowest, Off silences everything. */
  datatype Level = Trace | Debug | Info | Warn | Err | Critical | Off

  /** A call site as the logging macros capture it: file, line and function. */
  datatype SourceLoc = SourceLoc(filename: string, line: int, funcname: string)

  /** One record handed to a logger; the message is already formatted and opaque here. */
  datatype Record = Record(loc: SourceLoc, level: Level, msg: string)

  /** The sinks the wrapper builds, each with its own severity threshold. */
  datatype Sink =
    | ConsoleSink(level: Level)
    | RotatingFileSink(path: string, maxSize: nat, maxFiles: nat, level: Level)
    | BasicFileSink(path: string, truncate: bool, level: Level)

  /** Settings consumed by the wrapper's initialisation. */
  datatype LogConfig = LogConfig(
    loggerName: string,
    filePath: string,
    logLevel: Level,
    maxFileSize: nat,
    maxFiles: nat,
    useAsync: bool)

  /** The configuration used when the caller gives none: 50 MiB files, five of them, asynchronous. */
  const DefaultConfig := LogConfig("DefaultLogger", "logs/rlog.log", Trace, 1024 * 1024 * 50, 5, true)

  datatype Option<T> = None | Some(value: T)

  /** The backend's shared worker pool for asynchronous loggers. */
  datatype ThreadPool = ThreadPool(queueSize: nat, threads: nat)

  /** A logger of the backend: a name, a fixed list of sinks, a threshold and a flush level. */
  class Logger {
    const name: string
    const sinks: seq<Sink>
    const isAsync: bool
    var level: Level
    var flushLevel: Level

    /** A new logger starts at the backend's defaults: threshold Info, flushing Off. */
    constructor (name: string, sinks: seq<Sink>, isAsync: bool)
      ensures this.name == name && this.sinks == sinks && this.isAsync == isAsync
      ensures level == Info && flushLevel == Off
    {
      this.name := name;
      this.sinks := sinks;
      this.isAsync := isAsync;
      level := Info;
      flushLevel := Off;
    }

    method SetLevel(l: Level)
      modifies this
      ensures level == l && flushLevel == old(flushLevel)
    {
      level := l;
    }

    method FlushOn(l: Level)
      modifies this
      ensures flushLevel == l && level == old(level)
    {
      flushLevel := l;
    }
  }

  /** One call of `log` on a logger: which logger received which record. */
  datatype Emission = Emission(target: Logger, record: Record)
}
