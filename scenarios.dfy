/** Clients of `LogWrapper` that use only its contracts: each shows a
    behaviour of the wrapper that follows from them. */
module Scenarios {
  import opened LogTypes
  import opened ExtraPath
  import opened Wrapper

  /** A warning throttled at 2000 ticks, logged at ticks 0, 1000 and 2100,
      reaches the default logger at 0 and 2100 only. */
  method ThrottledWarnings() {
    var w := new LogWrapper();
    var config := DefaultConfig.(logLevel := Info);
    var r := w.Init(config);
    var site := SourceLoc("main.cpp", 15, "module_B_work");
    w.LogThrottled(2000, site, Warn, "iteration 0", 0);
    w.LogThrottled(2000, site, Warn, "iteration 1", 1000);
    w.LogThrottled(2000, site, Warn, "iteration 2", 2100);
    assert w.output == [Emission(w.logger, Record(site, Warn, "iteration 0")),
                        Emission(w.logger, Record(site, Warn, "iteration 2"))];
  }

  /** Before initialisation the tick is recorded but nothing is emitted, so
      the same site stays suppressed for the rest of the interval. */
  method ThrottledBeforeInit() {
    var w := new LogWrapper();
    var site := SourceLoc("main.cpp", 6, "module_A_work");
    w.LogThrottled(2000, site, Info, "early", 0);
    assert w.output == [] && w.throttleMap.Keys != {};
    var r := w.Init();
    w.LogThrottled(2000, site, Info, "late", 500);
    assert w.output == [];
  }

  /** Two first uses of one key create one logger and both records go to it. */
  method ExtraLoggerReused(tm: LocalTime) {
    var w := new LogWrapper();
    var site := SourceLoc("main.cpp", 7, "module_A_work");
    w.LogEx("debug_stream", site, Info, "x=5", tm, None);
    var created := w.exLoggers["debug_stream"];
    w.LogEx("debug_stream", site, Info, "x=5", tm, None);
    assert w.exLoggers == map["debug_stream" := created];
    assert w.output == [Emission(created, Record(site, Info, "x=5")), Emission(created, Record(site, Info, "x=5"))];
  }

  /** A failed creation is reported and not cached; the next call creates the logger. */
  method ExtraLoggerRetried(tm: LocalTime) {
    var w := new LogWrapper();
    var site := SourceLoc("main.cpp", 16, "module_B_work");
    w.LogEx("module_B_heavy_trace", site, Trace, "state", tm, Some("permission denied"));
    assert w.exLoggers == map[] && w.output == [] && |w.errorReports| == 1;
    w.LogEx("module_B_heavy_trace", site, Trace, "state", tm, None);
    assert "module_B_heavy_trace" in w.exLoggers && |w.output| == 1;
  }

  /** A second `Init` keeps the first configuration; after `Shutdown` the
      query gives null, `log` is still called on the kept logger for a
      throttled record, and `Init` builds a new logger. */
  method Lifecycle() {
    var w := new LogWrapper();
    var r1 := w.Init(DefaultConfig.(logLevel := Info));
    var first := w.logger;
    var r2 := w.Init(DefaultConfig.(logLevel := Err, useAsync := false));
    assert w.logger == first && first.level == Info && r2 == Done;
    w.Shutdown();
    var got := w.GetLogger();
    assert got == null;
    var site := SourceLoc("main.cpp", 6, "module_A_work");
    w.LogThrottled(0, site, Info, "after shutdown", 0);
    assert w.output == [Emission(first, Record(site, Info, "after shutdown"))];
    w.Shutdown();
    var r3 := w.Init(DefaultConfig.(logLevel := Err));
    assert w.logger != first && w.logger.level == Err && w.isInitialized;
  }

  /** A holder of the default logger may change its levels; the wrapper
      keeps working and still hands records to that logger. */
  method LevelsChangedByCaller() {
    var w := new LogWrapper();
    var r := w.Init(DefaultConfig.(useAsync := false));
    var l := w.GetLogger();
    l.SetLevel(Err);
    l.FlushOn(Critical);
    var site := SourceLoc("main.cpp", 6, "module_A_work");
    w.LogThrottled(1000, site, Info, "filtered by the logger", 0);
    assert w.output == [Emission(l, Record(site, Info, "filtered by the logger"))];
    var again := w.GetLogger();
    assert again == l && again.level == Err;
  }

  /** When the log file cannot be opened, initialisation ends the process
      with status 1, before the flag is ever set. */
  method FatalInit() {
    var w := new LogWrapper();
    var r := w.Init(DefaultConfig, Some("logs/rlog.log: Permission denied"));
    assert r.Fatal? && r.exitStatus == 1 && !w.isInitialized;
  }
}
