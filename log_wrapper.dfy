/** The `LogWrapper` singleton: the default logger and its lifecycle, the
    throttle tracker and the registry of extra loggers. Each operation is
    modelled as one atomic step on the object's state; in the source only
    the throttle tracker and the registry are guarded, each by its own
    mutex. What the backend receives is recorded in the ghost sequence
    `output`: one entry per call of `log` on a logger. */
module Wrapper {
  import opened LogTypes
  import opened Throttle
  import opened ExtraPath

  /** The outcome of initialisation. `Fatal` stands for the source's report on
      standard error followed by process exit with the given status. */
  datatype InitResult = Done | Fatal(exitStatus: int, diagnostic: string)

  /** The asynchronous loggers' pool: a queue of 8192 entries and one worker thread. */
  const AsyncPool := ThreadPool(8192, 1)

  /** The sinks of a default logger built from `config`: console first, then the rotating file. */
  function DefaultSinks(config: LogConfig): seq<Sink> {
    [ConsoleSink(config.logLevel), RotatingFileSink(config.filePath, config.maxFileSize, config.maxFiles, config.logLevel)]
  }

  /** The text the wrapper reports when an extra logger cannot be created. */
  function ExtraFailureMessage(key: string, what: string): string {
    "Failed to create extra logger for key '" + key + "': " + what
  }

  /** A default logger: a console sink then a rotating file sink, at one
      level. (Only the fixed parts of a logger: any holder of the logger may
      change its threshold and flush level later, so those are stated by
      `Init`, where they are set.) */
  ghost predicate DefaultShape(l: Logger) {
    && |l.sinks| == 2 && l.sinks[0].ConsoleSink? && l.sinks[1].RotatingFileSink?
    && l.sinks[0].level == l.sinks[1].level
  }

  /** An extra logger: named by its key, synchronous, with one truncating
      file sink at Trace. (Only the fixed parts of a logger: its threshold
      is stated where it is set.) */
  ghost predicate ExtraShape(key: string, l: Logger) {
    && l.name == key && !l.isAsync
    && |l.sinks| == 1 && l.sinks[0].BasicFileSink? && l.sinks[0].truncate && l.sinks[0].level == Trace
  }

  /** A new extra logger for `key`, writing to `filePath` from the start of the file. */
  method NewExtraLogger(key: string, filePath: string) returns (l: Logger)
    ensures fresh(l) && ExtraShape(key, l) && l.level == Trace && l.flushLevel == Off
    ensures l.sinks == [BasicFileSink(filePath, true, Trace)]
  {
    var fileSink := BasicFileSink(filePath, true, Trace);
    l := new Logger(key, [fileSink], false);
    l.SetLevel(Trace);
  }

  class LogWrapper {
    /** m_logger: the default logger, kept even after shutdown. */
    var logger: Logger?
    /** m_is_initialized */
    var isInitialized: bool
    /** m_throttle_map: call-site key to the tick of its last emission. */
    var throttleMap: map<string, int>
    /** m_ex_loggers: extra-logger key to its logger. */
    var exLoggers: map<string, Logger>
    /** The backend's process-wide default logger and thread pool. */
    var defaultLogger: Logger?
    var threadPool: Option<ThreadPool>

    /** Every record handed to a logger, in order. */
    ghost var output: seq<Emission>
    /** Every failure to create an extra logger that was reported, in order. */
    ghost var errorReports: seq<string>

    ghost predicate Valid()
      reads this
    {
      && (isInitialized ==> logger != null && defaultLogger == logger)
      && (isInitialized && logger.isAsync ==> threadPool == Some(AsyncPool))
      && (logger != null ==> DefaultShape(logger))
      && (forall k | k in exLoggers :: ExtraShape(k, exLoggers[k]) && exLoggers[k] != logger)
    }

    /** The instance before anything is initialised: no logger, empty tables. */
    constructor ()
      ensures Valid()
      ensures logger == null && !isInitialized && defaultLogger == null && threadPool == None
      ensures throttleMap == map[] && exLoggers == map[] && output == [] && errorReports == []
    {
      logger := null;
      isInitialized := false;
      throttleMap := map[];
      exLoggers := map[];
      defaultLogger := null;
      threadPool := None;
      output := [];
      errorReports := [];
    }

    /** Builds and installs the default logger, unless already initialised.
        `fileSinkFailure` is the backend's answer to opening `config.filePath`:
        None when the rotating file sink can be created, else its error text. */
    method Init(config: LogConfig := DefaultConfig, fileSinkFailure: Option<string> := None) returns (r: InitResult)
      requires Valid()
      modifies this
      ensures Valid()
      ensures old(isInitialized) ==> r == Done && unchanged(this)
      ensures throttleMap == old(throttleMap) && exLoggers == old(exLoggers)
      ensures output == old(output) && errorReports == old(errorReports)
      ensures !old(isInitialized) ==>
        threadPool == if config.useAsync then Some(AsyncPool) else old(threadPool)
      ensures !old(isInitialized) && fileSinkFailure.Some? ==>
        && r == Fatal(1, "Log initialization failed: " + fileSinkFailure.value + "\n")
        && !isInitialized && logger == old(logger) && defaultLogger == old(defaultLogger)
      ensures !old(isInitialized) && fileSinkFailure.None? ==>
        && r == Done && isInitialized
        && logger != null && fresh(logger) && defaultLogger == logger
        && logger.name == config.loggerName && logger.sinks == DefaultSinks(config)
        && logger.isAsync == config.useAsync
        && logger.level == config.logLevel && logger.flushLevel == config.logLevel
    {
      if isInitialized {
        return Done;
      }
      if config.useAsync {
        threadPool := Some(AsyncPool);
      }
      var consoleSink := ConsoleSink(config.logLevel);
      if fileSinkFailure.Some? {
        return Fatal(1, "Log initialization failed: " + fileSinkFailure.value + "\n");
      }
      var rotatingFileSink := RotatingFileSink(config.filePath, config.maxFileSize, config.maxFiles, config.logLevel);
      var sinks: seq<Sink> := [];
      sinks := sinks + [consoleSink];
      sinks := sinks + [rotatingFileSink];
      var l := new Logger(config.loggerName, sinks, config.useAsync);
      logger := l;
      l.SetLevel(config.logLevel);
      l.FlushOn(config.logLevel);
      defaultLogger := l;
      isInitialized := true;
      r := Done;
    }

    /** The default logger while initialised, null otherwise. */
    method GetLogger() returns (r: Logger?)
      requires Valid()
      ensures !isInitialized ==> r == null
      ensures isInitialized ==> r == logger && r != null
    {
      if !isInitialized {
        return null;
      }
      r := logger;
    }

    /** Marks the instance uninitialised and shuts the backend down (which
        forgets its default logger and thread pool); the wrapper's own logger
        and tables stay. A second call does nothing. */
    method Shutdown()
      requires Valid()
      modifies this
      ensures Valid()
      ensures !isInitialized
      ensures logger == old(logger) && throttleMap == old(throttleMap) && exLoggers == old(exLoggers)
      ensures output == old(output) && errorReports == old(errorReports)
      ensures old(isInitialized) ==> defaultLogger == null && threadPool == None
      ensures !old(isInitialized) ==> unchanged(this)
    {
      if isInitialized {
        defaultLogger := null;
        threadPool := None;
        isInitialized := false;
      }
    }

    /** Emits `msg` at `lvl` from `loc` unless that call site emitted less
        than `interval` ticks before `now`. The tick is recorded even when
        there is no logger; the record goes to `logger` whenever it is set,
        initialised or not. */
    method LogThrottled(interval: int, loc: SourceLoc, lvl: Level, msg: string, now: int)
      requires Valid()
      modifies this
      ensures Valid()
      ensures throttleMap == ThrottleUpdate(old(throttleMap), ThrottleKey(loc), now, interval)
      ensures output == if Admits(old(throttleMap), ThrottleKey(loc), now, interval) && logger != null
                        then old(output) + [Emission(logger, Record(loc, lvl, msg))]
                        else old(output)
      ensures logger == old(logger) && isInitialized == old(isInitialized) && exLoggers == old(exLoggers)
      ensures defaultLogger == old(defaultLogger) && threadPool == old(threadPool)
      ensures errorReports == old(errorReports)
    {
      var key := ThrottleKey(loc);
      if key !in throttleMap || now - throttleMap[key] >= interval {
        throttleMap := throttleMap[key := now];
        if logger != null {
          output := output + [Emission(logger, Record(loc, lvl, msg))];
        }
      }
    }

    /** The extra logger for `key`: the registered one if any, else a new one
        registered under `key`. `tm` is the local time at the call and
        `sinkFailure` the backend's answer to creating the file sink (None on
        success, else its error text); a failure is reported, yields null and
        is not cached, so a later call for `key` tries again. */
    method GetOrCreateExtra(key: string, tm: LocalTime, sinkFailure: Option<string>) returns (exLogger: Logger?)
      requires Valid()
      modifies this
      ensures Valid()
      ensures logger == old(logger) && isInitialized == old(isInitialized) && throttleMap == old(throttleMap)
      ensures defaultLogger == old(defaultLogger) && threadPool == old(threadPool) && output == old(output)
      ensures key in old(exLoggers) ==>
        exLogger == old(exLoggers)[key] && exLoggers == old(exLoggers) && errorReports == old(errorReports)
      ensures key !in old(exLoggers) && sinkFailure.None? ==>
        && exLogger != null && fresh(exLogger) && exLoggers == old(exLoggers)[key := exLogger]
        && exLogger.name == key && exLogger.level == Trace && exLogger.flushLevel == Off && !exLogger.isAsync
        && exLogger.sinks == [BasicFileSink(ExtraLogPath(key, tm), true, Trace)]
        && errorReports == old(errorReports)
      ensures key !in old(exLoggers) && sinkFailure.Some? ==>
        && exLogger == null && exLoggers == old(exLoggers)
        && errorReports == old(errorReports) + [ExtraFailureMessage(key, sinkFailure.value)]
    {
      if key in exLoggers {
        return exLoggers[key];
      }
      var filePath := ExtraLogPath(key, tm);
      if sinkFailure.Some? {
        errorReports := errorReports + [ExtraFailureMessage(key, sinkFailure.value)];
        return null;
      }
      exLogger := NewExtraLogger(key, filePath);
      exLoggers := exLoggers[key := exLogger];
    }

    /** Emits `msg` through the extra logger for `key`, creating that logger on
        first use; when it cannot be created, nothing is emitted. */
    method LogEx(key: string, loc: SourceLoc, lvl: Level, msg: string, tm: LocalTime, sinkFailure: Option<string>)
      requires Valid()
      modifies this
      ensures Valid()
      ensures logger == old(logger) && isInitialized == old(isInitialized) && throttleMap == old(throttleMap)
      ensures defaultLogger == old(defaultLogger) && threadPool == old(threadPool)
      ensures forall k | k in old(exLoggers) :: k in exLoggers && exLoggers[k] == old(exLoggers)[k]
      ensures key in old(exLoggers) ==>
        && exLoggers == old(exLoggers) && errorReports == old(errorReports)
        && output == old(output) + [Emission(old(exLoggers)[key], Record(loc, lvl, msg))]
      ensures key !in old(exLoggers) && sinkFailure.None? ==>
        && key in exLoggers && fresh(exLoggers[key])
        && exLoggers == old(exLoggers)[key := exLoggers[key]]
        && exLoggers[key].name == key && exLoggers[key].level == Trace && exLoggers[key].flushLevel == Off
        && exLoggers[key].sinks == [BasicFileSink(ExtraLogPath(key, tm), true, Trace)]
        && output == old(output) + [Emission(exLoggers[key], Record(loc, lvl, msg))]
        && errorReports == old(errorReports)
      ensures key !in old(exLoggers) && sinkFailure.Some? ==>
        && exLoggers == old(exLoggers) && output == old(output)
        && errorReports == old(errorReports) + [ExtraFailureMessage(key, sinkFailure.value)]
    {
      var exLogger := GetOrCreateExtra(key, tm, sinkFailure);
      if exLogger != null {
        output := output + [Emission(exLogger, Record(loc, lvl, msg))];
      }
    }
  }
}
