# LogWrapper, modelled in Dafny

A model of the sequential state logic of `LogWrapper`, the process-wide
logging facade of SpdlogWrapper. The facade owns three pieces of state:

- the default logger (`m_logger`) and its flag (`m_is_initialized`), set up
  once by `init`, read by `get_logger` and switched off by `shutdown`;
- the throttle tracker (`m_throttle_map`), which maps a call site
  (`file:line`) to the tick of its last emission and suppresses a throttled
  record that comes less than an interval after the previous one;
- the extra-logger registry (`m_ex_loggers`), a get-or-create cache of file
  loggers keyed by a caller-chosen string. Each logger writes to
  `logs/extra/<key>_YYYY-MM-DD_HH_MM_SS.log`.

In the source only `log_throttled` and `log_ex` take a lock, each the
mutex of its own map. `log_throttled` reads the clock before it locks.
`log_ex` locks twice, once to look the key up and once to create the
logger, and calls `log` on the extra logger after releasing the lock.
`init`, `get_logger` and `shutdown` take no lock, so calls made at the same
time from different threads race on `m_is_initialized` and `m_logger`.
Here, as a modelling choice, each operation is one atomic method on a
`LogWrapper` object. The backend (spdlog) appears only as the
objects the wrapper builds (`Logger`, with its sinks and levels) and the
calls it makes. Every call of `log` that records a caller's message, on
the default logger or an extra logger, is appended to the ghost sequence
`output`. The error the wrapper logs when an extra logger cannot be created
is not in `output`. It is appended to the ghost sequence `errorReports`.

Files:

- `decimal.dfy` (module `Decimal`): `std::to_string` on `int` and fmt's
  zero-padded `{:0Nd}`, each with a parser, so that each is specified by a
  round trip.
- `log_types.dfy` (module `LogTypes`): severity levels, call sites, records,
  sinks, `LogConfig` and its defaults, and the `Logger` class.
- `throttle.dfy` (module `Throttle`): the throttle key and the
  check-and-update rule as functions on the map. Also a replay of a sequence
  of throttled calls, with lemmas about that replay.
- `extra_path.dfy` (module `ExtraPath`): the extra log file path, a parser
  for it, and the round trip between them.
- `log_wrapper.dfy` (module `Wrapper`): the `LogWrapper` class with
  `Init`, `GetLogger`, `Shutdown`, `LogThrottled`, `GetOrCreateExtra` and
  `LogEx`.
- `scenarios.dfy` (module `Scenarios`): client methods. They derive
  end-to-end behaviours from the class contracts alone: the throttling
  timeline, reuse and retry of extra loggers, idempotent init followed
  by shutdown and re-init, and a caller changing the default logger's levels.

Inputs the source reads from the environment are parameters here:

- the steady-clock reading is an integer tick `now`, and the throttle
  interval is an integer number of ticks;
- the broken-down local time is a `LocalTime` with the six `struct tm`
  fields;
- whether the backend can create a file sink is an oracle `Option<string>`.
  `None` means the sink is created. `Some(what)` means creation throws
  `spdlog_ex` with that text.

The model keeps these behaviours of the code:

- `shutdown` keeps `m_logger` and both maps and releases no logger of its own.
- `log_throttled` records the tick even when there is no logger, and still
  calls `m_logger->log` after `shutdown`.
- A failed `init` exits the process. Here that is the `Fatal(1, diagnostic)`
  outcome.
- `log_ex` never consults the initialisation flag.
- Whoever holds the default logger may change its level or flush level
  after `init`. The object invariant states only the logger's fixed parts,
  so every operation keeps working after such a change.

## Model

| member | source | states |
|---|---|---|
| Decimal.IntToString | src/LogWrapper.h:106 | the line number is written as `std::to_string` does: a leading minus sign exactly when the line is negative, then the shortest digits (a leading `0` only for zero itself, as the single digit `0`); the text contains no colon and parses back to the line |
| Decimal.ParseNatDigits | src/LogWrapper.h:106 | the shortest decimal digits of a natural number read back as that number |
| Decimal.ZeroPad | src/LogWrapper.h:151-152 | fmt's `{:0Nd}` pads the decimal text to at least N characters without truncating (length is the larger of N and the unpadded length), and the padded text still reads back as the value; it starts with a minus sign exactly when the value is negative |
| Decimal.ZeroPadExact | src/LogWrapper.h:151-152 | a value in 0..10^N-1 is written as exactly N digits that read back as the value |
| Throttle.ThrottleKey | src/LogWrapper.h:106 | the key is exactly the file name, then `:`, then `IntToString(line)` (so the canonical `std::to_string` text of the line, which reads back as the line number) |
| Throttle.ThrottleKeyInjective | src/LogWrapper.h:106 | two call sites share a key if and only if they have the same file name and line; the function name, level and message never matter |
| Throttle.ThrottleUpdate | src/LogWrapper.h:110-114 | an admitted call (key absent, or `now - last >= interval`) sets `key := now`; a suppressed one leaves the map unchanged; the key set grows by exactly `key`; other entries are unchanged; with `interval >= 0` the key's tick never decreases |
| Throttle.ReplayNeverForgets | src/LogWrapper.h:112-114 | over any sequence of throttled calls, no key is ever removed |
| Throttle.ReplayNeverRewinds | src/LogWrapper.h:112-114 | over any sequence of calls with non-negative intervals, every key's recorded tick is at least its earlier value |
| Throttle.ReplayOnlyAddsCallers | src/LogWrapper.h:106-114 | every key the tracker gains is the key of some call site that called |
| Throttle.SiteIndependence | src/LogWrapper.h:106-114 | a key's presence and tick after a sequence of calls are the same as after only that site's calls |
| Throttle.EmitsIndependentOfOtherSites | src/LogWrapper.h:110-112 | whether a call is emitted is unaffected by calls from other sites |
| Throttle.ThrottleWindow | src/LogWrapper.h:110-114 | from a fresh site: the first call is emitted, a call less than `interval` later is suppressed, and a call at least `interval` after the first is emitted |
| ExtraPath.FileDate | src/LogWrapper.h:151-152 | the date stamp is never shorter than its 20-character fixed layout |
| ExtraPath.ExtraLogPath | src/LogWrapper.h:153 | the path starts with `logs/extra/`, then the key, and ends with `.log`, with room for the full stamp |
| ExtraPath.StampRoundTrip | src/LogWrapper.h:151-152 | when every time field fits its width, the stamp has the fixed `_YYYY-MM-DD_HH_MM_SS.log` layout and each field reads back as the calendar year, month from 1, day, hour, minute and second |
| ExtraPath.ExtraLogPathRoundTrip | src/LogWrapper.h:148-153 | parsing the path gives back the key and all six time fields: year counted from 1900, month from 0, day, hour, minute and second |
| ExtraPath.ExtraLogPathInjective | src/LogWrapper.h:148-153 | for times whose fields each fit their width, two keys or two times give the same path if and only if both key and time are equal |
| LogTypes.Logger.constructor | src/LogWrapper.cpp:36-42 | a logger built from a name and sinks (asynchronous or not) keeps them, and starts at the backend's defaults: threshold info, flushing off |
| LogTypes.Logger.SetLevel | src/LogWrapper.cpp:45 | `set_level` changes the threshold and leaves the flush level |
| LogTypes.Logger.FlushOn | src/LogWrapper.cpp:46 | `flush_on` changes the flush level and leaves the threshold |
| Wrapper.NewExtraLogger | src/LogWrapper.h:154-157 | a new extra logger is named by its key, is synchronous, at level trace with the backend's default flush level (off), and has one truncating file sink for the given path |
| Wrapper.LogWrapper.constructor | src/LogWrapper.h:52-62 | a new instance is uninitialised, with no logger and empty throttle map and registry |
| Wrapper.LogWrapper.Init | src/LogWrapper.cpp:10-57 | no-op (`Done`, nothing changes) when already initialised, whatever the config. Otherwise, with `useAsync` the pool (8192, 1) is set up first. A file-sink failure gives `Fatal(1, "Log initialization failed: <what>\n")` and leaves the instance uninitialised. Success builds a fresh logger: the config's name, an async logger if and only if `useAsync`, sinks console then rotating file (path, size, count) all at `logLevel`, and logger level and flush level both `logLevel`. That logger becomes the backend default and the flag is set. Maps and output are unchanged |
| Wrapper.LogWrapper.GetLogger | src/LogWrapper.cpp:59-66 | null exactly when not initialised, otherwise `m_logger` (never null then) |
| Wrapper.LogWrapper.Shutdown | src/LogWrapper.h:42-49 | when initialised: clears the flag, and the backend forgets its default logger and thread pool. A second call changes nothing. `m_logger`, both maps and the output are kept |
| Wrapper.LogWrapper.LogThrottled | src/LogWrapper.h:103-120 | the map becomes `ThrottleUpdate(old map, ThrottleKey(loc), now, interval)`. The record `(loc, lvl, msg)` is appended to the output, addressed to `m_logger`, exactly when the call is admitted and `m_logger` is non-null (initialised or not). Nothing else changes |
| Wrapper.LogWrapper.GetOrCreateExtra | src/LogWrapper.h:125-168 | a registered key yields its own logger and changes nothing. An unregistered key with a working sink gains exactly `key ↦ fresh logger`: named `key`, level trace, flush level off, file `ExtraLogPath(key, tm)`. On a failure it yields null, the registry is unchanged and one error naming the key is reported. Bindings are never replaced or removed |
| Wrapper.LogWrapper.LogEx | src/LogWrapper.h:122-174 | the record goes to the registered logger, or to the newly created one, which is added as the only new binding. If creation fails, nothing is emitted or cached and the error is reported. Existing bindings, the default logger, the flag and the throttle map are untouched |

## Left out

- Mutexes and concurrency in general. Each call is one atomic step, so the model does not capture interleavings: the unsynchronised races of `init`, `get_logger` and `shutdown` on the flag and `m_logger`, a clock reading in `log_throttled` that is older than the map entry another thread stored meanwhile, the double-checked locking in `log_ex` (its two locked sections become one lookup), or the record that `log_ex` hands to the extra logger outside the lock.
- The backend's internals. This covers the work of `logger->log` itself (level filtering, formatting, patterns set by `set_pattern`), flushing, file rotation and the async queue. `output` records that `log` was called on a logger, not what reaches a file. The pattern strings are not modelled.
- `spdlog::shutdown` is modelled only as the backend forgetting its default logger and thread pool. The destructor's call to it at process exit is not modelled.
- Clocks and `localtime` are parameters. Duration types and the 64-bit tick arithmetic of `steady_clock` are plain integers, so overflow of `now - last` is not modelled.
- Variadic `fmt` message formatting: the message is an opaque string.
- `get_console_only_logger` and the `LOG_*` macros. They only capture the call site and set up the backend.
- The `LOG_ERROR` on a failed extra-logger creation is recorded only as a report in `errorReports`. It is not routed through `get_logger`, so the null dereference that the macro makes whenever the flag is false (before `init`, or after `shutdown`) is not modelled.
- `fprintf(stderr, …)` and `exit(1)` in `init` become the `Fatal` result. The console sink and the thread pool are assumed to be created without error. Only the rotating file sink can fail.
- `instance()` (the static singleton) is one `LogWrapper` object built by its constructor.
- The backend's own initial default logger (a console logger it creates at start-up) is not modelled: `defaultLogger` starts as null. The wrapper never reads it.
- Whether `logs/extra/` exists is part of the sink-creation oracle.
- src/main.cpp, the demo driver, is not part of this model.
- ExtraPath.ExtraLogPathInjective: proved only when each field of both times fits its width, as for the round trip below. The path is injective for wider fields too, since a sign `-` always follows a separator and a separator `-` always follows a digit, but that parse is not proved.
- ExtraPath.ExtraLogPathRoundTrip: proved only when each field fits its width (calendar year 0 to 9999; month, day, hour, minute and second below 100). A wider field makes the stamp longer and is not covered.
- The object invariant `Valid` states only the loggers' fixed parts (sinks, name, synchrony), not their level or flush level, because any holder of a logger may change those. The levels are stated by `Init` and `GetOrCreateExtra`, which set them.
