# reactive-logger, modelled in Dafny

`reactive-logger` wraps an slf4j `Logger` so that Reactor pipelines can log
without blocking their event-loop threads. Every log method returns a
`Mono<Context>` that, once subscribed, runs on a blocking-safe scheduler,
installs the MDC (slf4j's thread-local diagnostic map) from a map stored in
the subscriber `Context`, makes one backend call, clears the MDC again and
hands the context back. A fluent `Builder` configures the wrapped logger,
the scheduler and the context key, and rejects null or blank inputs.

The repository carries two near-identical copies of this core, one in the
package `com.github.johncfranco.reactive.logger` and one in
`hu.numichi.reactive.logger`. Both are modelled over one shared MDC and
backend layer.

Modules:

- `Wrappers`: `Option` (Java `null` and `Optional`) and `Result` (a value or an error signal).
- `JavaString`: `String.trim()` with its two scanning loops, and the blank test `trim().isEmpty()`.
- `Slf4j`: levels, markers, calls and events. It also holds `World`, the state of the one worker a
  run executes on: the MDC, the trace of backend writes (each with the MDC seen at that moment)
  and the backend's enabled-level configuration. `MDC.clear`, `MDC.setContextMap`, `Logger`
  writes and `is*Enabled` queries are defined here.
- `Reactor`: the subscriber `Context` (keys to MDC maps), `Scheduler` and `Context.getOrEmpty`.
- `LoggerConfig`: what both copies share. That is the built logger, the `Builder` with
  `withLogger`, `withScheduler` and `build`, the context-key check (its null-key exception
  kind is a parameter), `readMDC`, the level queries, the collapsed overloads `Overload`/`Log`,
  and fluent builder chains.
- `FrancoSnapshot`, `FrancoLogger`: the `com.github.johncfranco` copy's `MDCSnapshot` and
  `ReactiveLogger`: defaults, `withMDCContextKey` (null key gives `NullPointerException`),
  `wrap` as `Run`, and runs of several subscriptions on one worker.
- `NumichiSnapshot`, `NumichiLogger`: the `hu.numichi` copy, with `MDCSnapshot.empty()`,
  `takeMDCSnapshot`, `withMDCContextKey` (null key gives `IllegalArgumentException`), and its
  `wrap`. Lemmas show that it agrees with the other copy except in two places. The first is the
  exception for a null context key. The second is the default logger of `builder()`, which each
  copy names after its own `ReactiveLogger` class.

A log action (the `Mono`) is the value `LogAction(logger, call)`. It holds no
`World`, so building it cannot reach the backend. Only `Run`, which models a
subscription with a given subscriber context, touches the world. Whether the
backend call throws is decided by the backend, so it is an input
(`failure`) of each run.

## Model

| member | source | states |
|---|---|---|
| JavaString.IsBlank | src/main/java/com/github/johncfranco/reactive/logger/ReactiveLogger.java:1138 | a key is blank after `trim()` exactly when every char is at most U+0020; the empty key is blank |
| JavaString.Trim | java-reactive-logger/src/main/java/hu/numichi/reactive/logger/ReactiveLogger.java:337 | the trimmed key is empty exactly when every char is at most U+0020; otherwise it starts and ends with a char above U+0020 |
| LoggerConfig.DefaultKeyIsValid | src/main/java/com/github/johncfranco/reactive/logger/ReactiveLogger.java:74 | the default context key `"reactive-logger-mdc"` passes the builder's own blank check |
| LoggerConfig.WithLogger | src/main/java/com/github/johncfranco/reactive/logger/ReactiveLogger.java:1101-1104 | a null logger throws `NullPointerException("logger must not be null")` and leaves the builder as it was; a logger is stored and the other two fields stay the same |
| LoggerConfig.WithScheduler | src/main/java/com/github/johncfranco/reactive/logger/ReactiveLogger.java:1116-1119 | a null scheduler throws `NullPointerException("scheduler must not be null")` and leaves the builder as it was; a scheduler is stored and the other two fields stay the same |
| LoggerConfig.SetMdcContextKey | src/main/java/com/github/johncfranco/reactive/logger/ReactiveLogger.java:1133-1144 | null key: the given exception, builder unchanged; all-whitespace key: `IllegalArgumentException`, builder unchanged; any key with a char above U+0020 is stored with no exception |
| LoggerConfig.Build | src/main/java/com/github/johncfranco/reactive/logger/ReactiveLogger.java:83-87 | the built logger has exactly the builder's scheduler, logger and context key |
| LoggerConfig.ReadMdc | src/main/java/com/github/johncfranco/reactive/logger/ReactiveLogger.java:138-140 | `readMDC` is present exactly when the context has the configured key, and then it is the map stored there |
| LoggerConfig.Imperative | src/main/java/com/github/johncfranco/reactive/logger/ReactiveLogger.java:108-110 | `imperative()` returns the wrapped slf4j logger the instance was built with |
| LoggerConfig.SchedulerOf | src/main/java/com/github/johncfranco/reactive/logger/ReactiveLogger.java:123-125 | `scheduler()` returns the scheduler the instance was built with |
| LoggerConfig.GetName | src/main/java/com/github/johncfranco/reactive/logger/ReactiveLogger.java:150-152 | `getName()` is the name of the wrapped slf4j logger |
| LoggerConfig.IsLevelEnabled | src/main/java/com/github/johncfranco/reactive/logger/ReactiveLogger.java:161-163 | a level query, with or without marker, is the backend's answer for this logger, level and marker; it reads the world without changing it |
| LoggerConfig.Overload | src/main/java/com/github/johncfranco/reactive/logger/ReactiveLogger.java:173-244 | each argument shape (message, one arg, two args, arg array, message and throwable) becomes a backend call of the same level and marker with the same text and arguments; only the throwable shape carries a throwable |
| LoggerConfig.Log | src/main/java/com/github/johncfranco/reactive/logger/ReactiveLogger.java:173-175 | a level method yields a pending action for this logger whose call has the requested level, marker and shape; it takes no world and so performs no backend call |
| LoggerConfig.ChainKeepsBuilderValid | src/main/java/com/github/johncfranco/reactive/logger/ReactiveLogger.java:1084-1144 | starting from a builder with a non-blank key, every fluent chain of `with*` calls keeps the key non-blank, whether it completes or stops at an exception |
| FrancoSnapshot.Of | src/main/java/com/github/johncfranco/reactive/logger/MDCSnapshot.java:53-71 | opening with a map makes the MDC exactly that map, with earlier keys gone; opening with null leaves the MDC empty; nothing but the MDC changes |
| FrancoSnapshot.Close | src/main/java/com/github/johncfranco/reactive/logger/MDCSnapshot.java:77-80 | closing leaves the MDC empty and changes nothing else |
| FrancoSnapshot.OpenThenCloseLeavesEmpty | src/main/java/com/github/johncfranco/reactive/logger/MDCSnapshot.java:53-80 | for any earlier MDC and any map or null, open then close ends with an empty MDC and the rest of the world as before |
| FrancoSnapshot.CloseDoesNotRestore | src/main/java/com/github/johncfranco/reactive/logger/MDCSnapshot.java:40-45 | if the MDC held entries before opening, they are not there after closing (erase, not restore) |
| FrancoSnapshot.OfIgnoresEarlierMdc | src/main/java/com/github/johncfranco/reactive/logger/MDCSnapshot.java:61-63 | the MDC inside a snapshot depends only on the map it was opened with, never on earlier contents |
| FrancoLogger.NewBuilder | src/main/java/com/github/johncfranco/reactive/logger/ReactiveLogger.java:1084-1089 | a new builder holds the bounded-elastic scheduler, the logger named after the `ReactiveLogger` class and the key `"reactive-logger-mdc"`, and satisfies the non-blank-key invariant |
| FrancoLogger.WithMdcContextKey | src/main/java/com/github/johncfranco/reactive/logger/ReactiveLogger.java:1133-1144 | null key: `NullPointerException`; blank key: `IllegalArgumentException`; both leave the builder unchanged; any other key is stored |
| FrancoLogger.Run | src/main/java/com/github/johncfranco/reactive/logger/ReactiveLogger.java:1063-1072 | a run appends exactly one backend event, with the action's logger and call, while the MDC is the context's map under the key (or empty when absent). The MDC is empty afterwards on both paths. On success the input context comes back; a backend exception comes back as the failure |
| FrancoLogger.LevelMethodForwards | src/test/java/com/github/johncfranco/reactive/logger/ReactiveLoggerTest.java:182-225 | running a level method's action records a call of that level and marker with the shape's text and arguments, under the context's MDC map or an empty MDC |
| FrancoLogger.StaleMdcNeverReachesBackend | src/main/java/com/github/johncfranco/reactive/logger/MDCSnapshot.java:54-55 | when the context holds no map under the key, the backend call sees an empty MDC whatever the worker's MDC held before |
| FrancoLogger.NoLevelGating | src/main/java/com/github/johncfranco/reactive/logger/ReactiveLogger.java:161-175 | a run makes its backend call even when the backend reports that level and marker disabled |
| FrancoLogger.RunEachIsolated | src/main/java/com/github/johncfranco/reactive/logger/ReactiveLogger.java:1063-1071 | successive independent runs on one worker add one event each, in order; each event's MDC is that run's own context map, even after earlier runs failed; the MDC is empty afterwards |
| FrancoLogger.BuiltKeyNeverBlank | src/main/java/com/github/johncfranco/reactive/logger/ReactiveLogger.java:1084-1153 | every logger built from `builder()` through any chain of `with*` calls has a non-blank context key |
| FrancoLogger.ReadsDefaultKey | src/test/java/com/github/johncfranco/reactive/logger/ReactiveLoggerTest.java:69-74 | a default logger reads the map stored under `"reactive-logger-mdc"` |
| FrancoLogger.ReadsCustomKey | src/test/java/com/github/johncfranco/reactive/logger/ReactiveLoggerBuilderTest.java:43-49 | a non-blank custom key is accepted, and the built logger reads the map stored under it |
| FrancoLogger.AccessorsReturnBuilderChoices | src/test/java/com/github/johncfranco/reactive/logger/ReactiveLoggerTest.java:85-95 | `imperative()`, `getName()` and `scheduler()` return the logger and scheduler given to the builder, or the defaults for fields left unset |
| NumichiSnapshot.Of | java-reactive-logger/src/main/java/hu/numichi/reactive/logger/MDCSnapshot.java:9-19 | opening with a map makes the MDC exactly that map; opening with null leaves it empty; nothing else changes |
| NumichiSnapshot.Empty | java-reactive-logger/src/main/java/hu/numichi/reactive/logger/MDCSnapshot.java:21-23 | `empty()` leaves the MDC empty whatever it held before |
| NumichiSnapshot.Close | java-reactive-logger/src/main/java/hu/numichi/reactive/logger/MDCSnapshot.java:25-28 | closing leaves the MDC empty and changes nothing else |
| NumichiSnapshot.AgreesWithFrancoSnapshot | java-reactive-logger/src/main/java/hu/numichi/reactive/logger/MDCSnapshot.java:8-29 | this copy's `of`, `empty` and `close` have the same effect as the other copy's `of`, `of(null)` and `close` |
| NumichiLogger.NewBuilder | java-reactive-logger/src/main/java/hu/numichi/reactive/logger/ReactiveLogger.java:315-320 | a new builder holds the bounded-elastic scheduler, the logger named after this package's `ReactiveLogger` class and the key `"reactive-logger-mdc"`, and has a non-blank key |
| NumichiLogger.WithMdcContextKey | java-reactive-logger/src/main/java/hu/numichi/reactive/logger/ReactiveLogger.java:332-343 | null and blank keys both throw `IllegalArgumentException` and leave the builder unchanged; any other key is stored |
| NumichiLogger.NullKeyIsTheOnlyDivergence | java-reactive-logger/src/main/java/hu/numichi/reactive/logger/ReactiveLogger.java:332-335 | on a non-null key both copies' `withMDCContextKey` give the same result; on null both reject and leave the builder alone, with `IllegalArgumentException` here and `NullPointerException` in the other copy |
| NumichiLogger.DefaultBuildersDifferOnlyInLogger | java-reactive-logger/src/main/java/hu/numichi/reactive/logger/ReactiveLogger.java:16-18 | the two copies' new builders have the same scheduler and context key; their default loggers differ, each named after its own class |
| NumichiLogger.TakeMdcSnapshot | java-reactive-logger/src/main/java/hu/numichi/reactive/logger/ReactiveLogger.java:299-301 | the MDC becomes the map the context holds under the key, or empty when the key is absent; nothing else changes |
| NumichiLogger.CopyOf | java-reactive-logger/src/main/java/hu/numichi/reactive/logger/ReactiveLogger.java:305 | `Context.of(contextView)` has the same keys and values as the view |
| NumichiLogger.Run | java-reactive-logger/src/main/java/hu/numichi/reactive/logger/ReactiveLogger.java:303-313 | a run appends exactly one backend event under the context's MDC map (or an empty MDC) and leaves the MDC empty on both paths. On success it yields a context with the same entries as the input view; a backend exception is delivered as the failure |
| NumichiLogger.AgreesWithFrancoRun | java-reactive-logger/src/main/java/hu/numichi/reactive/logger/ReactiveLogger.java:303-313 | for every world, action, context and backend outcome, this copy's run equals the other copy's run |
| NumichiLogger.LevelMethodForwards | java-reactive-logger/src/main/java/hu/numichi/reactive/logger/ReactiveLogger.java:204-222 | each level method's action, when run, makes exactly one backend call of the same level with identical arguments, on the configured logger |
| NumichiLogger.BuiltKeyNeverBlank | java-reactive-logger/src/main/java/hu/numichi/reactive/logger/ReactiveLogger.java:315-347 | every logger built from this copy's `builder()` through any chain of `with*` calls has a non-blank context key |
| NumichiLogger.TakeSnapshotInstallsContextMap | src/test/java/com/github/johncfranco/reactive/logger/ReactiveLoggerTest.java:76-83 | with the default key, `takeMDCSnapshot` installs exactly the map stored in the context |

Two points about the sources that the model follows:

- Closing a snapshot never restores what the MDC held before it was
  opened; it erases the MDC. `CloseDoesNotRestore` states this.
- The tests in `src/test` call `MDCSnapshot.empty()` and
  `logger.takeMDCSnapshot(context)`. Neither exists in the
  `com.github.johncfranco` main sources; both exist only in the
  `hu.numichi` copy, which is where the model puts them.

## Left out

- Reactor scheduling (`subscribeOn`, `boundedElastic` threads, `deferContextual`, `subscriberContext`): a run is one synchronous step on one abstract worker, the `World`. Thread hopping and cancellation are not modelled.
- Cross-thread isolation: only sequential, non-interleaved runs on one worker are modelled (`RunEachIsolated`). Truly concurrent runs on different threads each have their own MDC, and that is outside a sequential model.
- slf4j internals (message formatting, level filtering, marker semantics, appenders): the backend only records events, answers enabled queries from a set, and throws when told to.
- The 60 overloads: they are collapsed into `Overload` over five argument shapes and `Log`. The marker and non-marker variants differ only in the `Option<Marker>` argument.
- Object identity (`sameInstance` in the tests, `trim()` returning `this`): the model compares values.
- `Context` entries that are not string maps: a context here maps keys to MDC maps only. The unchecked cast in `readMDC`, when another kind of value sits under the key, is not modelled.
- `JavaString.Trim`: Java chars are UTF-16 code units and Dafny chars are Unicode scalar values. Only chars up to U+0020 matter to `trim()`, and they are the same in both.
- `MDC` storage being unavailable (a fatal configuration error): not modelled.
- The example applications (HTTP servers, request-ID filters, delay services, both `Main` classes): demonstration I/O and glue.
