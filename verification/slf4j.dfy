/** The slf4j side of the system, treated as a foreign library: the
    thread-affine diagnostic map `org.slf4j.MDC` and the `Logger` interface.

    The backend is opaque. What the model keeps of it is (a) the current MDC
    contents, (b) the trace of write calls it has received, each recorded with
    the MDC contents at the moment of the call, and (c) the answers its
    `is*Enabled` queries give. All of it lives in one `World` value, which
    stands for the single worker thread a log action runs on. */
module Slf4j {
  import opened Wrappers

  /** The five slf4j levels. */
  datatype Level = Trace | Debug | Info | Warn | Error

  /** An slf4j `Marker`, known here only by its name. */
  datatype Marker = Marker(name: string)

  /** A `Throwable` handed to the backend or thrown by it. */
  datatype Throwable = Throwable(message: string)

  /** A format argument (a Java `Object`), known here only by its rendering. */
  datatype Arg = Arg(text: string)

  /** A wrapped slf4j `Logger`, known by its name. */
  datatype Logger = Logger(name: string)

  /** The contents of the MDC: diagnostic keys to values. */
  type MdcMap = map<string, string>

  /** One call on a backend `Logger` write method, with every overload
      collapsed into one shape: level, optional marker, format or message,
      format arguments, optional throwable. */
  datatype Call = Call(
    level: Level,
    marker: Option<Marker>,
    format: string,
    args: seq<Arg>,
    throwable: Option<Throwable>)

  /** What the backend observed of one write: which logger was called, with
      which arguments, and what the MDC held at that moment. */
  datatype Event = Event(logger: string, call: Call, mdc: MdcMap)

  /** A question the backend answers with `is<Level>Enabled([marker])`. */
  datatype EnabledQuery = EnabledQuery(logger: string, level: Level, marker: Option<Marker>)

  /** The state of the single worker a log action runs on: its MDC, the
      trace of backend writes, and the backend's level configuration. */
  datatype World = World(mdc: MdcMap, events: seq<Event>, enabled: set<EnabledQuery>)

  /** `MDC.clear()`: erase every entry, touching nothing else. */
  function MdcClear(w: World): (r: World)
    ensures r.mdc == map[]
    ensures r.events == w.events && r.enabled == w.enabled
  {
    w.(mdc := map[])
  }

  /** `MDC.setContextMap(m)`: replace the whole MDC by a copy of `m`;
      earlier keys do not survive. */
  function MdcSetContextMap(w: World, m: MdcMap): (r: World)
    ensures r.mdc == m
    ensures r.events == w.events && r.enabled == w.enabled
  {
    w.(mdc := m)
  }

  /** A write on the backend logger. The backend records the call together
      with the MDC it sees, then either returns normally (`failure` is
      `None`) or throws `failure`. Whether it throws is the backend's own
      behaviour, so it is an input here. */
  function Write(w: World, logger: Logger, call: Call, failure: Option<Throwable>): (r: (World, Option<Throwable>))
    ensures r.0.events == w.events + [Event(logger.name, call, w.mdc)]
    ensures r.0.mdc == w.mdc && r.0.enabled == w.enabled
    ensures r.1 == failure
  {
    (w.(events := w.events + [Event(logger.name, call, w.mdc)]), failure)
  }

  /** `Logger.is<Level>Enabled([marker])`: a read of the backend's
      configuration, with no effect. */
  predicate IsEnabled(w: World, logger: Logger, level: Level, marker: Option<Marker>) {
    EnabledQuery(logger.name, level, marker) in w.enabled
  }
}
