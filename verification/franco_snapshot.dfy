/** `MDCSnapshot` of the `com.github.johncfranco` copy: opening it installs
    a whole map into the MDC (or clears the MDC when there is no map), and
    closing it clears the MDC. Anything found in the MDC beforehand is taken
    to be left over from an unrelated task on the same thread and erased; it
    is never restored. */
module FrancoSnapshot {
  import opened Wrappers
  import opened Slf4j

  /** `MDCSnapshot.of(context)` with its private constructor: a present map
      replaces the MDC outright, an absent one clears it. */
  function Of(w: World, context: Option<MdcMap>): (r: World)
    ensures context.Some? ==> r.mdc == context.value
    ensures context.None? ==> r.mdc == map[]
    ensures r.events == w.events && r.enabled == w.enabled
  {
    match context
    case None => MdcClear(w)
    case Some(m) => MdcSetContextMap(w, m)
  }

  /** `close()`: erase the MDC, whatever it holds. */
  function Close(w: World): (r: World)
    ensures r.mdc == map[]
    ensures r.events == w.events && r.enabled == w.enabled
  {
    MdcClear(w)
  }

  /** Whatever the MDC held before and whatever was installed, a snapshot
      that has been opened and closed leaves the MDC empty and the rest of
      the world as it was. */
  lemma OpenThenCloseLeavesEmpty(w: World, context: Option<MdcMap>)
    ensures Close(Of(w, context)) == w.(mdc := map[])
  {
  }

  /** Closing does not restore: when the MDC held entries before the
      snapshot was opened, they are gone after it is closed. */
  lemma CloseDoesNotRestore(w: World, context: Option<MdcMap>)
    requires w.mdc != map[]
    ensures Close(Of(w, context)).mdc != w.mdc
  {
  }

  /** What the MDC holds inside the snapshot depends only on the map it was
      opened with, not on what the MDC held before: stale entries never leak
      in, and no earlier key is merged with the new map. */
  lemma OfIgnoresEarlierMdc(w1: World, w2: World, context: Option<MdcMap>)
    ensures Of(w1, context).mdc == Of(w2, context).mdc
  {
  }
}
