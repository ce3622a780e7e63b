/** `ReactiveLogger` of the `com.github.johncfranco` copy: its builder
    defaults, its context-key check, and `wrap`, the one method every
    level x arity x marker overload funnels into.

    Running a log action (subscribing to its `Mono`) reads the MDC map from
    the subscriber context, opens a snapshot with it, makes exactly one
    backend call, closes the snapshot on both the normal and the throwing
    path, and hands the context back. */
module FrancoLogger {
  import opened Wrappers
  import opened Slf4j
  import opened Reactor
  import opened JavaString
  import opened LoggerConfig
  import FrancoSnapshot

  /** `LoggerFactory.getLogger(ReactiveLogger.class)` names the default
      logger after the class. */
  const DefaultLoggerName: string := "com.github.johncfranco.reactive.logger.ReactiveLogger"

  /** This copy rejects a null context key with a `NullPointerException`. */
  const NullKeyError: JavaException := NullPointerException("MDC context key must not be null")

  /** `ReactiveLogger.builder()`: every field at its default. */
  function NewBuilder(): (b: Builder)
    ensures b.scheduler == BoundedElastic
    ensures b.logger == Logger(DefaultLoggerName)
    ensures b.mdcContextKey == DefaultMdcContextKey
    ensures ValidBuilder(b)
  {
    DefaultKeyIsValid();
    Builder(BoundedElastic, Logger(DefaultLoggerName), DefaultMdcContextKey)
  }

  /** `Builder.withMDCContextKey`: a null key throws `NullPointerException`,
      a blank one `IllegalArgumentException`, and either way the builder
      keeps its old key; any other key replaces it. */
  function WithMdcContextKey(b: Builder, key: Option<string>): (r: Updated)
    ensures key.None? ==> r == Updated(b, Some(NullPointerException("MDC context key must not be null")))
    ensures key.Some? && (forall i | 0 <= i < |key.value| :: IsTrimmable(key.value[i])) ==>
              r == Updated(b, Some(IllegalArgumentException("MDC context key must not be blank")))
    ensures key.Some? && (exists i | 0 <= i < |key.value| :: !IsTrimmable(key.value[i])) ==>
              r == Updated(b.(mdcContextKey := key.value), None)
  {
    SetMdcContextKey(b, key, NullKeyError)
  }

  /** Subscribing to the `Mono` that `wrap` builds, with subscriber context
      `ctx`, on the worker whose state is `w`; `failure` is what the backend
      call throws, if anything. The snapshot is opened with
      `readMDC(context).orElse(null)` and closed as by try-with-resources. */
  function Run(w: World, a: LogAction, ctx: Context, failure: Option<Throwable>): (r: RunResult)
    ensures r.world.events == w.events +
              [Event(a.logger.logger.name, a.call,
                     if a.logger.mdcContextKey in ctx then ctx[a.logger.mdcContextKey] else map[])]
    ensures r.world.mdc == map[]
    ensures r.world.enabled == w.enabled
    ensures failure.None? ==> r.outcome == Success(ctx)
    ensures failure.Some? ==> r.outcome == Failure(failure.value)
  {
    var installed := FrancoSnapshot.Of(w, ReadMdc(a.logger, ctx));
    var (written, thrown) := Write(installed, a.logger.logger, a.call, failure);
    var closed := FrancoSnapshot.Close(written);
    match thrown
    case None => RunResult(closed, Success(ctx))
    case Some(t) => RunResult(closed, Failure(t))
  }

  /** Running a level method's action makes the backend call of the same
      level with the same marker, text, arguments and throwable, and the MDC
      it sees is the context's map (or empty). */
  lemma LevelMethodForwards(w: World, rl: ReactiveLogger, level: Level, marker: Option<Marker>,
                            shape: Shape, ctx: Context, failure: Option<Throwable>)
    ensures var e := Run(w, Log(rl, level, marker, shape), ctx, failure).world.events[|w.events|];
            && e.logger == rl.logger.name
            && e.call.level == level && e.call.marker == marker
            && e.call == Overload(level, marker, shape)
            && (ReadMdc(rl, ctx).Some? ==> e.mdc == ReadMdc(rl, ctx).value)
            && (ReadMdc(rl, ctx).None? ==> e.mdc == map[])
  {
  }

  /** The wrapper does no level gating: a run appends its event even when
      the backend reports the level (and marker) disabled. */
  lemma NoLevelGating(w: World, a: LogAction, ctx: Context, failure: Option<Throwable>)
    requires !IsLevelEnabled(w, a.logger, a.call.level, a.call.marker)
    ensures |Run(w, a, ctx, failure).world.events| == |w.events| + 1
    ensures Run(w, a, ctx, failure).world.events[|w.events|].call == a.call
  {
  }

  /** With no map in the context, the backend sees an empty MDC, however
      many stale entries the worker's MDC held before the run. */
  lemma StaleMdcNeverReachesBackend(w: World, a: LogAction, ctx: Context, failure: Option<Throwable>)
    requires a.logger.mdcContextKey !in ctx
    ensures Run(w, a, ctx, failure).world.events[|w.events|].mdc == map[]
  {
  }

  /** One independent subscription: the action, the subscriber context, and
      what the backend call throws. */
  datatype Subscription = Subscription(action: LogAction, context: Context, failure: Option<Throwable>)

  /** Several independent subscriptions run one after another on the same
      worker, as a shared scheduler thread would serialise them. A failed
      run does not stop the later ones. */
  function RunEach(w: World, subs: seq<Subscription>): (r: World)
    ensures r.enabled == w.enabled
    decreases |subs|
  {
    if |subs| == 0 then w
    else RunEach(Run(w, subs[0].action, subs[0].context, subs[0].failure).world, subs[1..])
  }

  /** The event a subscription should produce on its own. */
  function Expected(s: Subscription): (e: Event)
    ensures e.logger == s.action.logger.logger.name && e.call == s.action.call
    ensures ReadMdc(s.action.logger, s.context).Some? ==> e.mdc == ReadMdc(s.action.logger, s.context).value
    ensures ReadMdc(s.action.logger, s.context).None? ==> e.mdc == map[]
  {
    var key := s.action.logger.mdcContextKey;
    Event(s.action.logger.logger.name, s.action.call,
          if key in s.context then s.context[key] else map[])
  }

  /** Isolation across runs sharing a worker: each subscription adds exactly
      one event, in order, and the MDC recorded with each is its own
      context's map, never a leftover of an earlier run (failed or not).
      Pending actions that are never run add nothing. */
  lemma {:induction false} RunEachIsolated(w: World, subs: seq<Subscription>)
    ensures |RunEach(w, subs).events| == |w.events| + |subs|
    ensures RunEach(w, subs).events[..|w.events|] == w.events
    ensures forall i | 0 <= i < |subs| :: RunEach(w, subs).events[|w.events| + i] == Expected(subs[i])
    ensures |subs| > 0 ==> RunEach(w, subs).mdc == map[]
    decreases |subs|
  {
    if |subs| > 0 {
      var s := subs[0];
      var w1 := Run(w, s.action, s.context, s.failure).world;
      assert w1.events == w.events + [Expected(s)];
      RunEachIsolated(w1, subs[1..]);
      var r := RunEach(w, subs);
      assert r == RunEach(w1, subs[1..]);
      assert r.events[..|w1.events|] == w1.events;
      assert r.events[..|w.events|] == w1.events[..|w.events|];
      forall i | 0 <= i < |subs|
        ensures r.events[|w.events| + i] == Expected(subs[i])
      {
        if i == 0 {
          assert r.events[|w.events|] == w1.events[|w.events|];
        } else {
          assert |w.events| + i == |w1.events| + (i - 1);
          assert subs[1..][i - 1] == subs[i];
        }
      }
    }
  }

  /** A fluent chain starting from `builder()`. */
  function BuilderChain(calls: seq<BuilderCall>): (r: Updated)
    ensures |calls| == 0 ==> r == Updated(NewBuilder(), None)
  {
    Chain(NewBuilder(), calls, NullKeyError)
  }

  /** Every logger this copy's builder can produce has a non-blank context key. */
  lemma BuiltKeyNeverBlank(calls: seq<BuilderCall>)
    ensures ValidKey(Build(BuilderChain(calls).builder).mdcContextKey)
  {
    ChainKeepsBuilderValid(NewBuilder(), calls, NullKeyError);
  }

  /** A default logger reads its MDC map from `"reactive-logger-mdc"`. */
  lemma ReadsDefaultKey(m: MdcMap)
    ensures ReadMdc(Build(NewBuilder()), map[DefaultMdcContextKey := m]) == Some(m)
  {
  }

  /** A logger built with a custom non-blank key reads its MDC map from that key. */
  lemma ReadsCustomKey(key: string, m: MdcMap)
    requires exists i | 0 <= i < |key| :: !IsTrimmable(key[i])
    ensures WithMdcContextKey(NewBuilder(), Some(key)).thrown.None?
    ensures ReadMdc(Build(WithMdcContextKey(NewBuilder(), Some(key)).builder), map[key := m]) == Some(m)
  {
  }

  /** The wrapped logger and scheduler given to the builder come back from
      `imperative()` and `scheduler()`, and the name from `getName()`. */
  lemma AccessorsReturnBuilderChoices(l: Logger, s: Scheduler)
    ensures var u := WithLogger(NewBuilder(), Some(l));
            && Imperative(Build(u.builder)) == l
            && GetName(Build(u.builder)) == l.name
            && SchedulerOf(Build(u.builder)) == BoundedElastic
    ensures var u := WithScheduler(NewBuilder(), Some(s));
            && SchedulerOf(Build(u.builder)) == s
            && Imperative(Build(u.builder)) == Logger(DefaultLoggerName)
  {
  }
}
