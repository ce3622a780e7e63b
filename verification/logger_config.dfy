/** What the two copies of `ReactiveLogger` share: the immutable logger
    configuration, its fluent builder, the context lookup, the level
    pass-through queries and the collapsed log-call overloads.

    The copies differ only in the error a null context key raises and in the
    name of their default logger; each copy's module supplies those. */
module LoggerConfig {
  import opened Wrappers
  import opened Slf4j
  import opened Reactor
  import opened JavaString

  /** The context key the MDC map is read from unless the builder is told otherwise. */
  const DefaultMdcContextKey: string := "reactive-logger-mdc"

  /** A built `ReactiveLogger`: immutable after construction. */
  datatype ReactiveLogger = ReactiveLogger(scheduler: Scheduler, logger: Logger, mdcContextKey: string)

  /** The builder's three fields. */
  datatype Builder = Builder(scheduler: Scheduler, logger: Logger, mdcContextKey: string)

  /** The exceptions the builder throws. */
  datatype JavaException =
    | NullPointerException(message: string)
    | IllegalArgumentException(message: string)

  /** The builder's state after a `with*` call and the exception it threw,
      if any. A throwing call leaves the builder as it was. */
  datatype Updated = Updated(builder: Builder, thrown: Option<JavaException>)

  /** A context key the builder accepts: not blank after trimming. */
  predicate ValidKey(key: string) {
    !IsBlank(key)
  }

  /** The invariant every builder reachable from `builder()` keeps. */
  predicate ValidBuilder(b: Builder) {
    ValidKey(b.mdcContextKey)
  }

  lemma DefaultKeyIsValid()
    ensures ValidKey(DefaultMdcContextKey)
  {
    assert !IsTrimmable(DefaultMdcContextKey[0]);
  }

  /** `Builder.withLogger`: `Objects.requireNonNull`, then store. */
  function WithLogger(b: Builder, logger: Option<Logger>): (r: Updated)
    ensures logger.None? ==> r == Updated(b, Some(NullPointerException("logger must not be null")))
    ensures logger.Some? ==> r.thrown.None? && r.builder.logger == logger.value
    ensures logger.Some? ==> r.builder.scheduler == b.scheduler && r.builder.mdcContextKey == b.mdcContextKey
  {
    match logger
    case None => Updated(b, Some(NullPointerException("logger must not be null")))
    case Some(l) => Updated(b.(logger := l), None)
  }

  /** `Builder.withScheduler`: `Objects.requireNonNull`, then store. */
  function WithScheduler(b: Builder, scheduler: Option<Scheduler>): (r: Updated)
    ensures scheduler.None? ==> r == Updated(b, Some(NullPointerException("scheduler must not be null")))
    ensures scheduler.Some? ==> r.thrown.None? && r.builder.scheduler == scheduler.value
    ensures scheduler.Some? ==> r.builder.logger == b.logger && r.builder.mdcContextKey == b.mdcContextKey
  {
    match scheduler
    case None => Updated(b, Some(NullPointerException("scheduler must not be null")))
    case Some(s) => Updated(b.(scheduler := s), None)
  }

  /** `Builder.withMDCContextKey`, with the exception a null key raises left
      as a parameter (the one point where the two copies differ). A key made
      only of chars up to U+0020, the empty key included, is blank. */
  function SetMdcContextKey(b: Builder, key: Option<string>, onNull: JavaException): (r: Updated)
    ensures key.None? ==> r == Updated(b, Some(onNull))
    ensures key.Some? && (forall i | 0 <= i < |key.value| :: IsTrimmable(key.value[i])) ==>
              r == Updated(b, Some(IllegalArgumentException("MDC context key must not be blank")))
    ensures key.Some? && (exists i | 0 <= i < |key.value| :: !IsTrimmable(key.value[i])) ==>
              r == Updated(b.(mdcContextKey := key.value), None)
  {
    match key
    case None => Updated(b, Some(onNull))
    case Some(k) =>
      if IsBlank(k) then Updated(b, Some(IllegalArgumentException("MDC context key must not be blank")))
      else Updated(b.(mdcContextKey := k), None)
  }

  /** `Builder.build()`: the private constructor copies the three fields. */
  function Build(b: Builder): (rl: ReactiveLogger)
    ensures rl.scheduler == b.scheduler && rl.logger == b.logger && rl.mdcContextKey == b.mdcContextKey
  {
    ReactiveLogger(b.scheduler, b.logger, b.mdcContextKey)
  }

  /** `imperative()`: the wrapped slf4j logger. */
  function Imperative(rl: ReactiveLogger): (l: Logger)
    ensures l == rl.logger
  {
    rl.logger
  }

  /** `scheduler()`: the scheduler log actions run on. */
  function SchedulerOf(rl: ReactiveLogger): (s: Scheduler)
    ensures s == rl.scheduler
  {
    rl.scheduler
  }

  /** `getName()`: the wrapped logger's name. */
  function GetName(rl: ReactiveLogger): (name: string)
    ensures name == rl.logger.name
    ensures name == Imperative(rl).name
  {
    rl.logger.name
  }

  /** `readMDC(context)`: the MDC map stored under the configured key. */
  function ReadMdc(rl: ReactiveLogger, ctx: Context): (r: Option<MdcMap>)
    ensures r.Some? <==> rl.mdcContextKey in ctx
    ensures r.Some? ==> r.value == ctx[rl.mdcContextKey]
  {
    GetOrEmpty(ctx, rl.mdcContextKey)
  }

  /** `is<Level>Enabled()` and `is<Level>Enabled(marker)`: asked of the
      wrapped logger directly, with no deferral and no effect on the world. */
  function IsLevelEnabled(w: World, rl: ReactiveLogger, level: Level, marker: Option<Marker>): (enabled: bool)
    ensures enabled <==> EnabledQuery(rl.logger.name, level, marker) in w.enabled
  {
    IsEnabled(w, rl.logger, level, marker)
  }

  /** The argument shapes of the per-level overloads. */
  datatype Shape =
    | Message(msg: string)
    | OneArg(format: string, arg: Arg)
    | TwoArgs(format: string, arg1: Arg, arg2: Arg)
    | ArgArray(format: string, arguments: seq<Arg>)
    | MessageThrowable(msg: string, t: Throwable)

  /** The backend call a level method makes, e.g. `warn(marker, format, arg)`
      calls `logger.warn(marker, format, arg)`: same level, same marker, same
      text, same arguments, and a throwable only in the throwable shape. */
  function Overload(level: Level, marker: Option<Marker>, shape: Shape): (c: Call)
    ensures c.level == level && c.marker == marker
    ensures shape.Message? ==> c.format == shape.msg && c.args == [] && c.throwable.None?
    ensures shape.OneArg? ==> c.format == shape.format && c.args == [shape.arg] && c.throwable.None?
    ensures shape.TwoArgs? ==> c.format == shape.format && c.args == [shape.arg1, shape.arg2] && c.throwable.None?
    ensures shape.ArgArray? ==> c.format == shape.format && c.args == shape.arguments && c.throwable.None?
    ensures shape.MessageThrowable? ==> c.format == shape.msg && c.args == [] && c.throwable == Some(shape.t)
  {
    match shape
    case Message(msg) => Call(level, marker, msg, [], None)
    case OneArg(format, arg) => Call(level, marker, format, [arg], None)
    case TwoArgs(format, arg1, arg2) => Call(level, marker, format, [arg1, arg2], None)
    case ArgArray(format, arguments) => Call(level, marker, format, arguments, None)
    case MessageThrowable(msg, t) => Call(level, marker, msg, [], Some(t))
  }

  /** The `Mono<Context>` a level method returns: a pending action naming the
      logger and the call it will make. It carries no world, so building it
      cannot reach the backend; only running it (in each copy's module) does. */
  datatype LogAction = LogAction(logger: ReactiveLogger, call: Call)

  /** Any level method, e.g. `info(marker, format, arg1, arg2)`: one pending
      call at that level with exactly the given arguments. */
  function Log(rl: ReactiveLogger, level: Level, marker: Option<Marker>, shape: Shape): (a: LogAction)
    ensures a.logger == rl
    ensures a.call.level == level && a.call.marker == marker
    ensures a.call == Overload(level, marker, shape)
  {
    LogAction(rl, Overload(level, marker, shape))
  }

  /** The outcome of subscribing to a log action: the state of the worker
      afterwards, and either the context handed to the subscriber or the
      backend's exception. */
  datatype RunResult = RunResult(world: World, outcome: Result<Context, Throwable>)

  /** One fluent builder call, with its possibly-null argument. */
  datatype BuilderCall =
    | CallWithLogger(logger: Option<Logger>)
    | CallWithScheduler(scheduler: Option<Scheduler>)
    | CallWithMdcContextKey(key: Option<string>)

  /** One builder call applied to `b`. */
  function ApplyCall(b: Builder, c: BuilderCall, onNull: JavaException): (r: Updated)
    ensures r.thrown.Some? ==> r.builder == b
  {
    match c
    case CallWithLogger(l) => WithLogger(b, l)
    case CallWithScheduler(s) => WithScheduler(b, s)
    case CallWithMdcContextKey(k) => SetMdcContextKey(b, k, onNull)
  }

  /** A fluent chain `b.withX(..).withY(..)...`: the calls run in order and
      the first exception ends the chain. */
  function Chain(b: Builder, calls: seq<BuilderCall>, onNull: JavaException): (r: Updated)
    decreases |calls|
  {
    if |calls| == 0 then Updated(b, None)
    else
      var u := ApplyCall(b, calls[0], onNull);
      if u.thrown.Some? then u else Chain(u.builder, calls[1..], onNull)
  }

  /** No fluent chain, whether it completes or throws part-way, can leave a
      builder with a blank context key. */
  lemma {:induction false} ChainKeepsBuilderValid(b: Builder, calls: seq<BuilderCall>, onNull: JavaException)
    requires ValidBuilder(b)
    ensures ValidBuilder(Chain(b, calls, onNull).builder)
    decreases |calls|
  {
    if |calls| > 0 {
      var u := ApplyCall(b, calls[0], onNull);
      assert ValidBuilder(u.builder);
      if u.thrown.None? {
        ChainKeepsBuilderValid(u.builder, calls[1..], onNull);
      }
    }
  }
}
