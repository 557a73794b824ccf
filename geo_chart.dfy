/**
 * The geo choropleth chart object: its layer registry, drill-down and
 * roll-up callbacks and the mouse-wheel dispatcher with its cooldown
 * flag.  What a handler does to the outside world (start a d3 timer,
 * re-fit the viewport, call back the application, cancel the browser's
 * scrolling) is returned as an ordered list of effects.  A d3 timer that
 * fires calls `_enableAction`; here that is the explicit input `Expire`.
 */
module GeoChoropleth {
  import opened Options
  import opened WheelEvents
  import opened GeoLayers

  /** `_adaptTo` re-fits the viewport to one feature or to a collection of them. */
  datatype Target<P> = Region(feature: Feature<P>) | Collection(features: seq<Feature<P>>)

  datatype Effect<P> =
    | StartTimer(name: string, delay: nat)             // d3.timer(() => _enableAction(name), delay)
    | AdaptTo(target: Target<P>, duration: nat)        // _adaptTo(target, duration)
    | CallDrillDown(callback: Callback, id: Option<string>)
    | CallRollUp(callback: Callback)
    | PreventDefault                                   // d3.event.preventDefault()

  const WHEEL_DELAY: nat := 700
  const DRILL_DOWN_DURATION: nat := 750
  const ROLL_UP_DURATION: nat := 700

  /** What a wheel handler reads besides the cooldown flag. */
  datatype Config<!P, K> = Config(layers: seq<Layer<P, K>>, drillDown: Option<Callback>, rollUp: Option<Callback>)

  /** `_drillDown(d)`: fit the viewport to `d`, then hand `d.id` to the drill-down callback. */
  function DrillDownEffects<P>(d: Feature<P>, callback: Callback): seq<Effect<P>> {
    [AdaptTo(Region(d), DRILL_DOWN_DURATION), CallDrillDown(callback, d.id)]
  }

  /** `_rollUp` can run: `geoJson(0)` exists, and the roll-up callback is set when it is called. */
  predicate CanRollUp<P, K>(cfg: Config<P, K>) {
    |cfg.layers| >= 1 && (|cfg.layers| >= 2 ==> cfg.rollUp.Some?)
  }

  /**
   * `_rollUp()`: with two layers or more, fit to the last-but-one layer
   * and call the roll-up callback; otherwise fit to layer 0 and call
   * nothing.
   */
  function RollUpEffects<P, K>(cfg: Config<P, K>): (r: seq<Effect<P>>)
    requires CanRollUp(cfg)
    ensures |cfg.layers| >= 2 ==>
      r == [AdaptTo(Collection(cfg.layers[|cfg.layers| - 2].data), ROLL_UP_DURATION), CallRollUp(cfg.rollUp.value)]
    ensures |cfg.layers| < 2 ==> r == [AdaptTo(Collection(cfg.layers[0].data), ROLL_UP_DURATION)]
  {
    var n := |cfg.layers|;
    var target := if n >= 2 then n - 2 else 0;
    var adapt := AdaptTo(Collection(cfg.layers[target].data), ROLL_UP_DURATION);
    if n >= 2 then [adapt, CallRollUp(cfg.rollUp.value)] else [adapt]
  }

  /** The event drills down (zoom-in and drilling allowed by the handler). */
  predicate DrillBranch(e: WheelEvent, drillDown: bool) { IsZoomIn(e) && drillDown }

  /** The event rolls up (not the drill branch, zoom-out and rolling up allowed). */
  predicate RollBranch(e: WheelEvent, drillDown: bool, rollUp: bool) {
    !DrillBranch(e, drillDown) && IsZoomOut(e) && rollUp
  }

  /**
   * What `onMouseWheel` needs in order not to throw: a datum and a
   * drill-down callback when it drills down, a first layer (and a roll-up
   * callback from two layers on) when it rolls up.
   */
  predicate CanHandle<P, K>(actions: map<string, bool>, cfg: Config<P, K>, e: WheelEvent,
                            d: Option<Feature<P>>, drillDown: bool, rollUp: bool) {
    && (DrillBranch(e, drillDown) && !Disabled(actions, ALL_MOUSE_WHEEL) ==> d.Some? && cfg.drillDown.Some?)
    && (RollBranch(e, drillDown, rollUp) && !Disabled(actions, ALL_MOUSE_WHEEL) ==> CanRollUp(cfg))
  }

  /** `onMouseWheel(d, drillDown, rollUp)`: the new `_disabledActions` and the effects, in order. */
  function Wheel<P, K>(actions: map<string, bool>, cfg: Config<P, K>, e: WheelEvent,
                       d: Option<Feature<P>>, drillDown: bool, rollUp: bool): (r: (map<string, bool>, seq<Effect<P>>))
    requires CanHandle(actions, cfg, e, d, drillDown, rollUp)
    ensures r.0 == actions || (!Disabled(actions, ALL_MOUSE_WHEEL) && r.0 == actions[ALL_MOUSE_WHEEL := true])
  {
    var enabled := !Disabled(actions, ALL_MOUSE_WHEEL);
    var delayed := actions[ALL_MOUSE_WHEEL := true];
    var timer := StartTimer(ALL_MOUSE_WHEEL, WHEEL_DELAY);
    if DrillBranch(e, drillDown) && enabled then
      (delayed, [timer] + DrillDownEffects(d.value, cfg.drillDown.value) + [PreventDefault])
    else if RollBranch(e, drillDown, rollUp) && enabled then
      (delayed, [timer] + RollUpEffects(cfg) + [PreventDefault])
    else
      (actions, [PreventDefault])
  }

  // ---------------------------------------------------------------------
  // The chart object
  // ---------------------------------------------------------------------

  class GeoChoroplethChart<!P, K> {
    var geoJsons: seq<Layer<P, K>>
    var disabledActions: map<string, bool>
    var callBackDrillDown: Option<Callback>
    var callBackRollUp: Option<Callback>

    constructor ()
      ensures geoJsons == [] && disabledActions == INITIAL_ACTIONS
      ensures callBackDrillDown == None && callBackRollUp == None
    {
      geoJsons := [];
      disabledActions := INITIAL_ACTIONS;
      callBackDrillDown := None;
      callBackRollUp := None;
    }

    function Cfg(): Config<P, K>
      reads this
    {
      Config(geoJsons, callBackDrillDown, callBackRollUp)
    }

    /**
     * `overlayGeoJson`: if a layer is called `name`, the first such layer
     * gets the new data and key accessor in place; otherwise a layer is
     * appended.
     */
    method OverlayGeoJson(json: seq<Feature<P>>, name: string, keyAccessor: Option<Feature<P> -> K>)
      modifies this`geoJsons
      ensures FindName(old(geoJsons), name).Some? ==>
        geoJsons == old(geoJsons)[FindName(old(geoJsons), name).value := Layer(name, json, keyAccessor)]
      ensures FindName(old(geoJsons), name).None? ==>
        geoJsons == old(geoJsons) + [Layer(name, json, keyAccessor)]
    {
      var i := 0;
      while i < |geoJsons|
        invariant 0 <= i <= |geoJsons| && geoJsons == old(geoJsons)
        invariant forall j :: 0 <= j < i ==> geoJsons[j].name != name
      {
        if geoJsons[i].name == name {
          geoJsons := geoJsons[i := geoJsons[i].(data := json, keyAccessor := keyAccessor)];
          return;
        }
        i := i + 1;
      }
      geoJsons := geoJsons + [Layer(name, json, keyAccessor)];
    }

    /** `removeGeoJson`: keep, in order, the layers whose name differs. */
    method RemoveGeoJson(name: string)
      modifies this`geoJsons
      ensures geoJsons == Without(old(geoJsons), name)
    {
      var kept: seq<Layer<P, K>> := [];
      var i := 0;
      while i < |geoJsons|
        invariant 0 <= i <= |geoJsons| && geoJsons == old(geoJsons)
        invariant kept == Without(geoJsons[..i], name)
      {
        var layer := geoJsons[i];
        WithoutSnoc(geoJsons[..i], layer, name);
        assert geoJsons[..i + 1] == geoJsons[..i] + [layer];
        if layer.name != name {
          kept := kept + [layer];
        }
        i := i + 1;
      }
      assert geoJsons[..i] == geoJsons;
      geoJsons := kept;
    }

    /** `geoJson(index)`: the layer at `index`, `undefined` outside the registry. */
    function GeoJson(index: int): (r: Option<Layer<P, K>>)
      reads this
      ensures r.Some? <==> 0 <= index < |geoJsons|
      ensures r.Some? ==> r.value == geoJsons[index]
    {
      if 0 <= index < |geoJsons| then Some(geoJsons[index]) else None
    }

    /** `isDataLayer(index)`: the layer has a key accessor. */
    function IsDataLayer(index: nat): (r: bool)
      reads this
      requires index < |geoJsons|
      ensures r <==> geoJsons[index].keyAccessor.Some?
    {
      geoJsons[index].keyAccessor.Some?
    }

    /** `getKey(layerIndex, d)`. */
    function GetKey(layerIndex: nat, d: Feature<P>): K
      reads this
      requires layerIndex < |geoJsons| && IsDataLayer(layerIndex)
    {
      geoJsons[layerIndex].keyAccessor.value(d)
    }

    method SetCallbackOnDrillDown(callback: Option<Callback>)
      modifies this`callBackDrillDown
      ensures callBackDrillDown == callback
    {
      callBackDrillDown := callback;
    }

    method SetCallbackOnRollUp(callback: Option<Callback>)
      modifies this`callBackRollUp
      ensures callBackRollUp == callback
    {
      callBackRollUp := callback;
    }

    /** `_delayAction(name, delay)`: disable `name` and start the timer that enables it again. */
    method DelayAction(name: string, delay: nat) returns (timer: Effect<P>)
      modifies this`disabledActions
      ensures disabledActions == old(disabledActions)[name := true]
      ensures timer == StartTimer(name, delay)
    {
      disabledActions := disabledActions[name := true];
      timer := StartTimer(name, delay);
    }

    /** `_enableAction(name)`: what the timer runs when it fires. */
    method EnableAction(name: string)
      modifies this`disabledActions
      ensures disabledActions == old(disabledActions)[name := false]
    {
      disabledActions := disabledActions[name := false];
    }

    /** `_drillDown(d)`. */
    method DrillDown(d: Feature<P>) returns (effects: seq<Effect<P>>)
      requires callBackDrillDown.Some?
      ensures effects == [AdaptTo(Region(d), DRILL_DOWN_DURATION), CallDrillDown(callBackDrillDown.value, d.id)]
    {
      effects := DrillDownEffects(d, callBackDrillDown.value);
    }

    /** `_rollUp()`. */
    method RollUp() returns (effects: seq<Effect<P>>)
      requires CanRollUp(Cfg())
      ensures effects == RollUpEffects(Cfg())
    {
      effects := RollUpEffects(Cfg());
    }

    /** `onMouseWheel(d, drillDown, rollUp)`. */
    method OnMouseWheel(e: WheelEvent, d: Option<Feature<P>>, drillDown: bool, rollUp: bool)
      returns (effects: seq<Effect<P>>)
      requires CanHandle(disabledActions, Cfg(), e, d, drillDown, rollUp)
      modifies this`disabledActions
      ensures (disabledActions, effects) == Wheel(old(disabledActions), Cfg(), e, d, drillDown, rollUp)
    {
      effects := [];
      if IsZoomIn(e) && drillDown {
        if !Disabled(disabledActions, ALL_MOUSE_WHEEL) {
          var timer := DelayAction(ALL_MOUSE_WHEEL, WHEEL_DELAY);
          var drilled := DrillDown(d.value);
          effects := [timer] + drilled;
        }
      } else if IsZoomOut(e) && rollUp {
        if !Disabled(disabledActions, ALL_MOUSE_WHEEL) {
          var timer := DelayAction(ALL_MOUSE_WHEEL, WHEEL_DELAY);
          var rolled := RollUp();
          effects := [timer] + rolled;
        }
      }
      var none: seq<Effect<P>> := [];
      assert none + [PreventDefault] == [PreventDefault];
      effects := effects + [PreventDefault];
    }

    /** `onMouseWheelRollUp`, bound to the svg background: never drills down. */
    method OnMouseWheelRollUp(e: WheelEvent) returns (effects: seq<Effect<P>>)
      requires CanHandle(disabledActions, Cfg(), e, None, false, true)
      modifies this`disabledActions
      ensures (disabledActions, effects) == Wheel(old(disabledActions), Cfg(), e, None, false, true)
    {
      effects := OnMouseWheel(e, None, false, true);
    }

    /** `onMouseWheelDrillDown`: never rolls up. */
    method OnMouseWheelDrillDown(e: WheelEvent, d: Feature<P>) returns (effects: seq<Effect<P>>)
      requires CanHandle(disabledActions, Cfg(), e, Some(d), true, false)
      modifies this`disabledActions
      ensures (disabledActions, effects) == Wheel(old(disabledActions), Cfg(), e, Some(d), true, false)
    {
      effects := OnMouseWheel(e, Some(d), true, false);
    }

    /** `onMouseWheelDrillDownRollUp`, bound to the regions of data layers. */
    method OnMouseWheelDrillDownRollUp(e: WheelEvent, d: Feature<P>) returns (effects: seq<Effect<P>>)
      requires CanHandle(disabledActions, Cfg(), e, Some(d), true, true)
      modifies this`disabledActions
      ensures (disabledActions, effects) == Wheel(old(disabledActions), Cfg(), e, Some(d), true, true)
    {
      effects := OnMouseWheel(e, Some(d), true, true);
    }
  }

  // ---------------------------------------------------------------------
  // Properties of one wheel event
  // ---------------------------------------------------------------------

  /** While the flag is set a wheel event only cancels scrolling. */
  lemma WheelWhileDisabled<P, K>(actions: map<string, bool>, cfg: Config<P, K>, e: WheelEvent,
                                 d: Option<Feature<P>>, drillDown: bool, rollUp: bool)
    requires Disabled(actions, ALL_MOUSE_WHEEL)
    ensures CanHandle(actions, cfg, e, d, drillDown, rollUp)
    ensures Wheel(actions, cfg, e, d, drillDown, rollUp) == (actions, [PreventDefault])
  {
  }

  /** With the flag clear, a zoom-in on a handler that may drill down drills down once and sets the flag. */
  lemma WheelDrillsDown<P, K>(actions: map<string, bool>, cfg: Config<P, K>, e: WheelEvent,
                              d: Feature<P>, rollUp: bool)
    requires !Disabled(actions, ALL_MOUSE_WHEEL) && IsZoomIn(e) && cfg.drillDown.Some?
    ensures CanHandle(actions, cfg, e, Some(d), true, rollUp)
    ensures var (after, effects) := Wheel(actions, cfg, e, Some(d), true, rollUp);
      after == actions[ALL_MOUSE_WHEEL := true] && Disabled(after, ALL_MOUSE_WHEEL) &&
      effects == [StartTimer(ALL_MOUSE_WHEEL, WHEEL_DELAY), AdaptTo(Region(d), DRILL_DOWN_DURATION),
                  CallDrillDown(cfg.drillDown.value, d.id), PreventDefault]
  {
  }

  /**
   * With the flag clear, a zoom-out that is not taken by the drill-down
   * branch rolls up once on a handler that may roll up, and sets the flag.
   */
  lemma WheelRollsUp<P, K>(actions: map<string, bool>, cfg: Config<P, K>, e: WheelEvent,
                           d: Option<Feature<P>>, drillDown: bool)
    requires !Disabled(actions, ALL_MOUSE_WHEEL) && IsZoomOut(e) && !(IsZoomIn(e) && drillDown)
    requires CanRollUp(cfg)
    ensures CanHandle(actions, cfg, e, d, drillDown, true)
    ensures var (after, effects) := Wheel(actions, cfg, e, d, drillDown, true);
      after == actions[ALL_MOUSE_WHEEL := true] && Disabled(after, ALL_MOUSE_WHEEL) &&
      effects == [StartTimer(ALL_MOUSE_WHEEL, WHEEL_DELAY)] + RollUpEffects(cfg) + [PreventDefault]
  {
  }

  /** Every wheel event ends by cancelling the page scroll, and nothing else follows it. */
  lemma WheelAlwaysPreventsDefault<P, K>(actions: map<string, bool>, cfg: Config<P, K>, e: WheelEvent,
                                         d: Option<Feature<P>>, drillDown: bool, rollUp: bool)
    requires CanHandle(actions, cfg, e, d, drillDown, rollUp)
    ensures var effects := Wheel(actions, cfg, e, d, drillDown, rollUp).1;
      |effects| >= 1 && effects[|effects| - 1] == PreventDefault &&
      forall j :: 0 <= j < |effects| - 1 ==> effects[j] != PreventDefault
  {
  }

  /** The svg background handler never drills down. */
  lemma BackgroundNeverDrillsDown<P, K>(actions: map<string, bool>, cfg: Config<P, K>, e: WheelEvent)
    requires CanHandle(actions, cfg, e, None, false, true)
    ensures forall x :: x in Wheel(actions, cfg, e, None, false, true).1 ==> !x.CallDrillDown? && !(x.AdaptTo? && x.target.Region?)
  {
  }

  /** An event that fires nothing leaves the flag as it was. */
  lemma WheelQuietKeepsFlag<P, K>(actions: map<string, bool>, cfg: Config<P, K>, e: WheelEvent,
                                  d: Option<Feature<P>>, drillDown: bool, rollUp: bool)
    requires CanHandle(actions, cfg, e, d, drillDown, rollUp)
    requires !DrillBranch(e, drillDown) && !RollBranch(e, drillDown, rollUp)
    ensures Wheel(actions, cfg, e, d, drillDown, rollUp) == (actions, [PreventDefault])
  {
  }

  // ---------------------------------------------------------------------
  // Sequences of events
  // ---------------------------------------------------------------------

  /** Which of the three wrappers receives the event. */
  datatype Handler = Background | DrillDownOnly | DrillDownRollUp {
    function DrillsDown(): bool { !Background? }
    function RollsUp(): bool { !DrillDownOnly? }
  }

  datatype Input<P> =
    | WheelOn(handler: Handler, e: WheelEvent, d: Feature<P>)   // a wheel event reaches a handler
    | Expire(name: string)                                      // the d3 timer of `name` fires

  function HandlerDatum<P>(i: Input<P>): Option<Feature<P>>
    requires i.WheelOn?
  {
    if i.handler.Background? then None else Some(i.d)
  }

  /** Every wheel event can be handled under `cfg`, whatever the flag. */
  predicate Configured<P, K>(cfg: Config<P, K>) {
    |cfg.layers| >= 1 && cfg.drillDown.Some? && cfg.rollUp.Some?
  }

  /** `_disabledActions` and the effects after a sequence of inputs, the layers and callbacks held fixed. */
  function Run<P, K>(actions: map<string, bool>, cfg: Config<P, K>, inputs: seq<Input<P>>): (map<string, bool>, seq<Effect<P>>)
    requires Configured(cfg)
    decreases |inputs|
  {
    if inputs == [] then (actions, [])
    else
      var (next, out) :=
        match inputs[0]
        case Expire(name) => (actions[name := false], [])
        case WheelOn(h, e, d) =>
          Wheel(actions, cfg, e, HandlerDatum(inputs[0]), h.DrillsDown(), h.RollsUp());
      var (final, rest) := Run(next, cfg, inputs[1..]);
      (final, out + rest)
  }

  /** No input is the expiry of the wheel cooldown. */
  predicate NoExpiry<P>(inputs: seq<Input<P>>) {
    forall j :: 0 <= j < |inputs| ==> inputs[j] != Expire(ALL_MOUSE_WHEEL)
  }

  function CountRefits<P>(effects: seq<Effect<P>>): nat {
    if effects == [] then 0
    else (if effects[0].AdaptTo? then 1 else 0) + CountRefits(effects[1..])
  }

  lemma {:induction false} CountAppend<P>(a: seq<Effect<P>>, b: seq<Effect<P>>)
    ensures CountRefits(a + b) == CountRefits(a) + CountRefits(b)
    decreases |a|
  {
    if a == [] {
      assert a + b == b;
    } else {
      assert (a + b)[0] == a[0];
      assert (a + b)[1..] == a[1..] + b;
      CountAppend(a[1..], b);
    }
  }

  /** While the cooldown lasts, however many wheel events arrive, none of them navigates. */
  lemma {:induction false} RunWhileDisabled<P, K>(actions: map<string, bool>, cfg: Config<P, K>, inputs: seq<Input<P>>)
    requires Configured(cfg) && Disabled(actions, ALL_MOUSE_WHEEL) && NoExpiry(inputs)
    ensures Disabled(Run(actions, cfg, inputs).0, ALL_MOUSE_WHEEL)
    ensures forall x :: x in Run(actions, cfg, inputs).1 ==> x == PreventDefault
    decreases |inputs|
  {
    if inputs != [] {
      assert NoExpiry(inputs[1..]) by {
        forall j | 0 <= j < |inputs[1..]| ensures inputs[1..][j] != Expire(ALL_MOUSE_WHEEL) {
          assert inputs[1..][j] == inputs[j + 1];
        }
      }
      match inputs[0]
      case Expire(name) =>
        assert name != ALL_MOUSE_WHEEL by { assert inputs[0] != Expire(ALL_MOUSE_WHEEL); }
        RunWhileDisabled(actions[name := false], cfg, inputs[1..]);
      case WheelOn(h, e, d) =>
        WheelWhileDisabled(actions, cfg, e, HandlerDatum(inputs[0]), h.DrillsDown(), h.RollsUp());
        RunWhileDisabled(actions, cfg, inputs[1..]);
    }
  }

  /**
   * A burst of wheel events with no expiry of the cooldown in between
   * navigates at most once: one re-fit, however many events.
   */
  lemma {:induction false} RunNavigatesAtMostOnce<P, K>(actions: map<string, bool>, cfg: Config<P, K>, inputs: seq<Input<P>>)
    requires Configured(cfg) && NoExpiry(inputs)
    ensures CountRefits(Run(actions, cfg, inputs).1) <= 1
    decreases |inputs|
  {
    if inputs != [] {
      assert NoExpiry(inputs[1..]) by {
        forall j | 0 <= j < |inputs[1..]| ensures inputs[1..][j] != Expire(ALL_MOUSE_WHEEL) {
          assert inputs[1..][j] == inputs[j + 1];
        }
      }
      var (next, out) :=
        match inputs[0]
        case Expire(name) => (actions[name := false], [])
        case WheelOn(h, e, d) =>
          Wheel(actions, cfg, e, HandlerDatum(inputs[0]), h.DrillsDown(), h.RollsUp());
      var rest := Run(next, cfg, inputs[1..]);
      CountAppend(out, rest.1);
      if inputs[0].WheelOn? {
        WheelRefits(actions, cfg, inputs[0].e, HandlerDatum(inputs[0]),
                    inputs[0].handler.DrillsDown(), inputs[0].handler.RollsUp());
      }
      if CountRefits(out) == 0 {
        RunNavigatesAtMostOnce(next, cfg, inputs[1..]);
      } else {
        RunWhileDisabled(next, cfg, inputs[1..]);
        NoRefits(rest.1);
      }
    }
  }

  /** One wheel event re-fits the viewport at most once, and only when it sets the cooldown flag. */
  lemma WheelRefits<P, K>(actions: map<string, bool>, cfg: Config<P, K>, e: WheelEvent,
                          d: Option<Feature<P>>, drillDown: bool, rollUp: bool)
    requires CanHandle(actions, cfg, e, d, drillDown, rollUp)
    ensures var (after, effects) := Wheel(actions, cfg, e, d, drillDown, rollUp);
      CountRefits(effects) <= 1 && (CountRefits(effects) == 1 ==> Disabled(after, ALL_MOUSE_WHEEL))
  {
    var (after, effects) := Wheel(actions, cfg, e, d, drillDown, rollUp);
    var timer: Effect<P> := StartTimer(ALL_MOUSE_WHEEL, WHEEL_DELAY);
    var tail: seq<Effect<P>> := [PreventDefault];
    assert CountRefits(tail) == 0 by { assert tail[1..] == []; }
    assert CountRefits([timer]) == 0 by { assert [timer][1..] == []; }
    var enabled := !Disabled(actions, ALL_MOUSE_WHEEL);
    if DrillBranch(e, drillDown) && enabled {
      var mid := DrillDownEffects(d.value, cfg.drillDown.value);
      assert CountRefits(mid) == 1 by { assert mid[1..][1..] == []; }
      CountAppend([timer], mid);
      CountAppend([timer] + mid, tail);
    } else if RollBranch(e, drillDown, rollUp) && enabled {
      var mid := RollUpEffects(cfg);
      assert CountRefits(mid) == 1 by {
        if |cfg.layers| >= 2 { assert mid[1..][1..] == []; } else { assert mid[1..] == []; }
      }
      CountAppend([timer], mid);
      CountAppend([timer] + mid, tail);
    }
  }

  lemma {:induction false} NoRefits<P>(effects: seq<Effect<P>>)
    requires forall x :: x in effects ==> x == PreventDefault
    ensures CountRefits(effects) == 0
    decreases |effects|
  {
    if effects != [] {
      assert effects[0] in effects;
      assert forall x :: x in effects[1..] ==> x in effects;
      NoRefits(effects[1..]);
    }
  }

  /** Once the timer has fired the next zoom-in on a region drills down again. */
  lemma ExpiryReenables<P, K>(actions: map<string, bool>, cfg: Config<P, K>, e: WheelEvent, d: Feature<P>)
    requires Configured(cfg) && IsZoomIn(e)
    ensures var after := Run(actions, cfg, [Expire(ALL_MOUSE_WHEEL), WheelOn(DrillDownRollUp, e, d)]);
      after.1 == [StartTimer(ALL_MOUSE_WHEEL, WHEEL_DELAY), AdaptTo(Region(d), DRILL_DOWN_DURATION),
                  CallDrillDown(cfg.drillDown.value, d.id), PreventDefault]
  {
    var inputs: seq<Input<P>> := [Expire(ALL_MOUSE_WHEEL), WheelOn(DrillDownRollUp, e, d)];
    var cleared := actions[ALL_MOUSE_WHEEL := false];
    WheelDrillsDown(cleared, cfg, e, d, true);
    var step := Wheel(cleared, cfg, e, Some(d), true, true);
    assert inputs[1..] == [WheelOn(DrillDownRollUp, e, d)];
    assert inputs[1..][1..] == [];
    assert Run(step.0, cfg, inputs[1..][1..]) == (step.0, []);
    assert Run(cleared, cfg, inputs[1..]) == (step.0, step.1 + []);
    assert Run(actions, cfg, inputs) == (step.0, [] + (step.1 + []));
    assert [] + (step.1 + []) == step.1;
  }
}
