/** The two Reactor types the logger touches: the subscriber `Context` and
    the `Scheduler` a log action is run on. */
module Reactor {
  import opened Wrappers
  import opened Slf4j

  /** A subscriber `Context`: an immutable association of keys to values.
      The values the logger reads are MDC maps, so that is the value type
      kept here. */
  type Context = map<string, MdcMap>

  /** A Reactor `Scheduler`, known by its name. Running on it is modelled as
      running synchronously on the one abstract worker of `Slf4j.World`. */
  datatype Scheduler = Scheduler(name: string)

  /** `Schedulers.boundedElastic()`, the shared pool meant for blocking work. */
  const BoundedElastic: Scheduler := Scheduler("boundedElastic")

  /** `Context.getOrEmpty(key)`. */
  function GetOrEmpty(ctx: Context, key: string): (r: Option<MdcMap>)
    ensures r.Some? <==> key in ctx
    ensures r.Some? ==> r.value == ctx[key]
  {
    if key in ctx then Some(ctx[key]) else None
  }
}
