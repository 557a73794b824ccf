/**
 * What the two charts' mouse-wheel handlers share: the direction of a
 * wheel event, the handles of the callbacks the embedding application
 * registers, and the table of temporarily disabled actions.
 */
module WheelEvents {
  import opened Options

  /**
   * The two fields the handlers read from `d3.event`.  A `wheel` event
   * carries `deltaY`, a `mousewheel` event `wheelDeltaY`; a missing field
   * (as on `DOMMouseScroll`) is `undefined`, and every comparison with
   * `undefined` is false.
   */
  datatype WheelEvent = WheelEvent(deltaY: Option<real>, wheelDeltaY: Option<real>)

  /** `d3.event.deltaY < 0 || d3.event.wheelDeltaY > 0`. */
  predicate IsZoomIn(e: WheelEvent)
    ensures e.wheelDeltaY.None? ==> (IsZoomIn(e) <==> e.deltaY.Some? && e.deltaY.value < 0.0)
    ensures e.deltaY.None? ==> (IsZoomIn(e) <==> e.wheelDeltaY.Some? && e.wheelDeltaY.value > 0.0)
  {
    (e.deltaY.Some? && e.deltaY.value < 0.0) || (e.wheelDeltaY.Some? && e.wheelDeltaY.value > 0.0)
  }

  /** `d3.event.deltaY > 0 || d3.event.wheelDeltaY < 0`. */
  predicate IsZoomOut(e: WheelEvent)
    ensures IsZoomIn(e) && IsZoomOut(e) ==> e.deltaY.Some? && e.wheelDeltaY.Some?
  {
    (e.deltaY.Some? && e.deltaY.value > 0.0) || (e.wheelDeltaY.Some? && e.wheelDeltaY.value < 0.0)
  }

  /** A function the application registered; only its identity matters here. */
  datatype Callback = Callback(handle: nat)

  /** The one action both charts delay. */
  const ALL_MOUSE_WHEEL := "allMouseWheel"

  /** `_disabledActions[name]` is truthy; a name never set is `undefined`, so enabled. */
  predicate Disabled(actions: map<string, bool>, name: string) {
    name in actions && actions[name]
  }

  /** The `_disabledActions` object both charts start with. */
  const INITIAL_ACTIONS: map<string, bool> := map[ALL_MOUSE_WHEEL := false]

  /** Delaying an action disables it and touches no other action; enabling it does the converse. */
  lemma DelayAndEnable(actions: map<string, bool>, name: string, other: string)
    requires other != name
    ensures Disabled(actions[name := true], name)
    ensures !Disabled(actions[name := false], name)
    ensures Disabled(actions[name := true], other) == Disabled(actions, other)
    ensures Disabled(actions[name := false], other) == Disabled(actions, other)
  {
  }

  /** A DOMMouseScroll event, which has neither field, is neither a zoom-in nor a zoom-out. */
  lemma NoFieldsNoDirection()
    ensures !IsZoomIn(WheelEvent(None, None)) && !IsZoomOut(WheelEvent(None, None))
  {
  }
}
