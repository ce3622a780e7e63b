/** `ReactiveLogger` of the `hu.numichi` copy. It differs from the other
    copy in three ways that the model keeps apart: a null context key is
    rejected with `IllegalArgumentException` rather than
    `NullPointerException`; the snapshot is taken through
    `takeMDCSnapshot`, which chooses between `of` and `empty`; and the run
    copies the subscriber's context view into a fresh `Context` before
    using it. Builder defaults other than the logger name, the context
    lookup and the overloads are shared with the other copy. */
module NumichiLogger {
  import opened Wrappers
  import opened Slf4j
  import opened Reactor
  import opened JavaString
  import opened LoggerConfig
  import NumichiSnapshot
  import FrancoLogger

  /** `LoggerFactory.getLogger(ReactiveLogger.class)` in this package. */
  const DefaultLoggerName: string := "hu.numichi.reactive.logger.ReactiveLogger"

  /** This copy rejects a null context key with an `IllegalArgumentException`. */
  const NullKeyError: JavaException := IllegalArgumentException("MDC context key must not be null")

  /** `ReactiveLogger.builder()`: every field at its default. */
  function NewBuilder(): (b: Builder)
    ensures b.scheduler == BoundedElastic
    ensures b.logger == Logger(DefaultLoggerName)
    ensures b.mdcContextKey == DefaultMdcContextKey
    ensures ValidBuilder(b)
  {
    DefaultKeyIsValid();
    Builder(BoundedElastic, Logger(DefaultLoggerName), DefaultMdcContextKey)
  }

  /** `Builder.withMDCContextKey`: null and blank keys both throw
      `IllegalArgumentException` and leave the builder unchanged; any other
      key replaces the old one. */
  function WithMdcContextKey(b: Builder, key: Option<string>): (r: Updated)
    ensures key.None? ==> r == Updated(b, Some(IllegalArgumentException("MDC context key must not be null")))
    ensures key.Some? && (forall i | 0 <= i < |key.value| :: IsTrimmable(key.value[i])) ==>
              r == Updated(b, Some(IllegalArgumentException("MDC context key must not be blank")))
    ensures key.Some? && (exists i | 0 <= i < |key.value| :: !IsTrimmable(key.value[i])) ==>
              r == Updated(b.(mdcContextKey := key.value), None)
  {
    SetMdcContextKey(b, key, NullKeyError)
  }

  /** The two copies disagree on exactly one input: the null key. Both
      reject it, with different exception kinds; on every non-null key they
      give the same result. */
  lemma NullKeyIsTheOnlyDivergence(b: Builder, key: Option<string>)
    ensures key.Some? ==> WithMdcContextKey(b, key) == FrancoLogger.WithMdcContextKey(b, key)
    ensures key.None? ==> WithMdcContextKey(b, key).thrown.value.IllegalArgumentException?
    ensures key.None? ==> FrancoLogger.WithMdcContextKey(b, key).thrown.value.NullPointerException?
    ensures WithMdcContextKey(b, key).builder == FrancoLogger.WithMdcContextKey(b, key).builder
  {
  }

  /** The two copies' `builder()` agree on the scheduler and the context
      key and differ in the default logger, which each names after its own
      `ReactiveLogger` class. */
  lemma DefaultBuildersDifferOnlyInLogger()
    ensures NewBuilder().scheduler == FrancoLogger.NewBuilder().scheduler
    ensures NewBuilder().mdcContextKey == FrancoLogger.NewBuilder().mdcContextKey
    ensures NewBuilder().logger != FrancoLogger.NewBuilder().logger
    ensures NewBuilder() == FrancoLogger.NewBuilder().(logger := Logger(DefaultLoggerName))
  {
    assert |DefaultLoggerName| != |FrancoLogger.DefaultLoggerName|;
  }

  /** `takeMDCSnapshot(context)`: `readMDC(context).map(MDCSnapshot::of)
      .orElseGet(MDCSnapshot::empty)`. */
  function TakeMdcSnapshot(w: World, rl: ReactiveLogger, ctx: Context): (r: World)
    ensures rl.mdcContextKey in ctx ==> r.mdc == ctx[rl.mdcContextKey]
    ensures rl.mdcContextKey !in ctx ==> r.mdc == map[]
    ensures r.events == w.events && r.enabled == w.enabled
  {
    match ReadMdc(rl, ctx)
    case Some(m) => NumichiSnapshot.Of(w, Some(m))
    case None => NumichiSnapshot.Empty(w)
  }

  /** `Context.of(contextView)`: a fresh context holding the view's entries. */
  function CopyOf(view: Context): (c: Context)
    ensures c.Keys == view.Keys
    ensures forall k | k in c :: c[k] == view[k]
  {
    map k | k in view :: view[k]
  }

  /** Subscribing to the `Mono` that `wrap` builds, with subscriber context
      view `ctx`, on the worker whose state is `w`; `failure` is what the
      backend call throws, if anything. */
  function Run(w: World, a: LogAction, ctx: Context, failure: Option<Throwable>): (r: RunResult)
    ensures r.world.events == w.events +
              [Event(a.logger.logger.name, a.call,
                     if a.logger.mdcContextKey in ctx then ctx[a.logger.mdcContextKey] else map[])]
    ensures r.world.mdc == map[]
    ensures r.world.enabled == w.enabled
    ensures failure.None? ==> r.outcome.Success? && r.outcome.value.Keys == ctx.Keys
    ensures failure.None? ==> forall k | k in ctx :: r.outcome.value[k] == ctx[k]
    ensures failure.Some? ==> r.outcome == Failure(failure.value)
  {
    var context := CopyOf(ctx);
    var installed := TakeMdcSnapshot(w, a.logger, context);
    var (written, thrown) := Write(installed, a.logger.logger, a.call, failure);
    var closed := NumichiSnapshot.Close(written);
    match thrown
    case None => RunResult(closed, Success(context))
    case Some(t) => RunResult(closed, Failure(t))
  }

  /** Both copies run a log action identically: the same backend event, the
      same MDC afterwards, and the same context or exception delivered. */
  lemma AgreesWithFrancoRun(w: World, a: LogAction, ctx: Context, failure: Option<Throwable>)
    ensures Run(w, a, ctx, failure) == FrancoLogger.Run(w, a, ctx, failure)
  {
    assert CopyOf(ctx) == ctx;
  }

  /** Each level method forwards to one backend call of the same level with
      identical arguments, under the MDC read from the context. */
  lemma LevelMethodForwards(w: World, rl: ReactiveLogger, level: Level, marker: Option<Marker>,
                            shape: Shape, ctx: Context, failure: Option<Throwable>)
    ensures var r := Run(w, Log(rl, level, marker, shape), ctx, failure);
            && |r.world.events| == |w.events| + 1
            && r.world.events[|w.events|].call == Overload(level, marker, shape)
            && r.world.events[|w.events|].logger == rl.logger.name
  {
  }

  /** Every logger this copy's builder can produce has a non-blank context key. */
  lemma BuiltKeyNeverBlank(calls: seq<BuilderCall>)
    ensures ValidKey(Build(Chain(NewBuilder(), calls, NullKeyError).builder).mdcContextKey)
  {
    ChainKeepsBuilderValid(NewBuilder(), calls, NullKeyError);
  }

  /** With the default key, `takeMDCSnapshot` installs exactly the map the
      context holds. */
  lemma TakeSnapshotInstallsContextMap(w: World, m: MdcMap)
    ensures TakeMdcSnapshot(w, Build(NewBuilder()), map[DefaultMdcContextKey := m]).mdc == m
  {
  }
}
