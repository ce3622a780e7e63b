/** `MDCSnapshot` of the `hu.numichi` copy: the same install-or-clear on
    opening and clear on closing as the other copy, plus an `empty()` factory
    that opens with no map. */
module NumichiSnapshot {
  import opened Wrappers
  import opened Slf4j
  import FrancoSnapshot

  /** `MDCSnapshot.of(context)` with its private constructor. */
  function Of(w: World, context: Option<MdcMap>): (r: World)
    ensures context.Some? ==> r.mdc == context.value
    ensures context.None? ==> r.mdc == map[]
    ensures r.events == w.events && r.enabled == w.enabled
  {
    match context
    case None => MdcClear(w)
    case Some(m) => MdcSetContextMap(w, m)
  }

  /** `MDCSnapshot.empty()`: open with no map, which clears whatever the MDC
      held before. */
  function Empty(w: World): (r: World)
    ensures r.mdc == map[]
    ensures r.events == w.events && r.enabled == w.enabled
  {
    Of(w, None)
  }

  /** `close()`: erase the MDC. */
  function Close(w: World): (r: World)
    ensures r.mdc == map[]
    ensures r.events == w.events && r.enabled == w.enabled
  {
    MdcClear(w)
  }

  /** The two copies of the snapshot behave identically. */
  lemma AgreesWithFrancoSnapshot(w: World, context: Option<MdcMap>)
    ensures Of(w, context) == FrancoSnapshot.Of(w, context)
    ensures Close(w) == FrancoSnapshot.Close(w)
    ensures Empty(w) == FrancoSnapshot.Of(w, None)
  {
  }
}
