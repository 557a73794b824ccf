/**
 * The word cloud chart: the linear font-size scale between the smallest
 * and the largest group value, the nullable drill-down and roll-up
 * callbacks, and the mouse-wheel handler that calls only the callbacks
 * that are registered, behind a 3000 ms cooldown.
 */
module WordCloud {
  import opened Options
  import opened WheelEvents

  const MIN_SIZE: real := 11.0
  const MAX_SIZE: real := 30.0
  const WHEEL_DELAY: nat := 3000

  // ---------------------------------------------------------------------
  // Font size
  // ---------------------------------------------------------------------

  /** `getSize(d)` once `min` and `max` are known and differ. */
  function GetSize(lo: real, hi: real, d: real): real
    requires lo < hi
  {
    (d - lo) * (MAX_SIZE - MIN_SIZE) / (hi - lo) + MIN_SIZE
  }

  /** The smallest value maps to 11 px and the largest to 30 px. */
  lemma GetSizeEndpoints(lo: real, hi: real)
    requires lo < hi
    ensures GetSize(lo, hi, lo) == MIN_SIZE
    ensures GetSize(lo, hi, hi) == MAX_SIZE
  {
    assert (hi - lo) * (MAX_SIZE - MIN_SIZE) / (hi - lo) == MAX_SIZE - MIN_SIZE;
  }

  /** A larger value always gets a strictly larger font. */
  lemma GetSizeStrictlyIncreasing(lo: real, hi: real, d: real, e: real)
    requires lo < hi && d < e
    ensures GetSize(lo, hi, d) < GetSize(lo, hi, e)
  {
    var k := (MAX_SIZE - MIN_SIZE) / (hi - lo);
    assert k > 0.0;
    assert GetSize(lo, hi, d) == (d - lo) * k + MIN_SIZE;
    assert GetSize(lo, hi, e) == (e - lo) * k + MIN_SIZE;
    assert (e - lo) * k - (d - lo) * k == (e - d) * k;
  }

  /** Every value between the smallest and the largest gets a font between 11 px and 30 px. */
  lemma GetSizeInRange(lo: real, hi: real, d: real)
    requires lo < hi && lo <= d <= hi
    ensures MIN_SIZE <= GetSize(lo, hi, d) <= MAX_SIZE
  {
    GetSizeEndpoints(lo, hi);
    if lo < d { GetSizeStrictlyIncreasing(lo, hi, lo, d); }
    if d < hi { GetSizeStrictlyIncreasing(lo, hi, d, hi); }
  }

  /** The value a font size stands for: the mapping is one to one, and this undoes it. */
  function ValueOfSize(lo: real, hi: real, size: real): real
    requires lo < hi
  {
    lo + (size - MIN_SIZE) * (hi - lo) / (MAX_SIZE - MIN_SIZE)
  }

  lemma GetSizeInverse(lo: real, hi: real, d: real)
    requires lo < hi
    ensures ValueOfSize(lo, hi, GetSize(lo, hi, d)) == d
  {
    var k := (MAX_SIZE - MIN_SIZE) / (hi - lo);
    assert GetSize(lo, hi, d) - MIN_SIZE == (d - lo) * k;
    assert (d - lo) * k * (hi - lo) / (MAX_SIZE - MIN_SIZE) == d - lo;
  }

  /** The value `group().order(d => -d).top(1)[0]` yields: the smallest. */
  function Least(values: seq<real>): (r: real)
    requires |values| > 0
    ensures r in values
    ensures forall v :: v in values ==> r <= v
  {
    if |values| == 1 then values[0]
    else
      var rest := Least(values[1..]);
      assert forall v :: v in values ==> v == values[0] || v in values[1..];
      if values[0] <= rest then values[0] else rest
  }

  /** The value `group().orderNatural().top(1)[0]` yields: the largest. */
  function Greatest(values: seq<real>): (r: real)
    requires |values| > 0
    ensures r in values
    ensures forall v :: v in values ==> v <= r
  {
    if |values| == 1 then values[0]
    else
      var rest := Greatest(values[1..]);
      assert forall v :: v in values ==> v == values[0] || v in values[1..];
      if values[0] >= rest then values[0] else rest
  }

  // ---------------------------------------------------------------------
  // Mouse wheel
  // ---------------------------------------------------------------------

  datatype Effect<D> =
    | StartTimer(name: string, delay: nat)       // d3.timer(() => _enableAction(name), delay)
    | CallDrillDown(callback: Callback, datum: D) // callbackDrillDown()(d)
    | CallRollUp(callback: Callback)             // callbackRollUp()()
    | PreventDefault                             // d3.event.preventDefault()

  /** The event takes the drill-down branch: a zoom-in with a drill-down callback registered. */
  predicate DrillBranch(e: WheelEvent, drillDown: Option<Callback>) { IsZoomIn(e) && drillDown.Some? }

  /** The event takes the roll-up branch: not the drill-down branch, a zoom-out, a roll-up callback registered. */
  predicate RollBranch(e: WheelEvent, drillDown: Option<Callback>, rollUp: Option<Callback>) {
    !DrillBranch(e, drillDown) && IsZoomOut(e) && rollUp.Some?
  }

  /** `onMouseWheel(d)`: the new `_disabledActions` and the effects, in order. */
  function Wheel<D>(actions: map<string, bool>, drillDown: Option<Callback>, rollUp: Option<Callback>,
                    e: WheelEvent, d: D): (r: (map<string, bool>, seq<Effect<D>>))
    ensures r.0 == actions || (!Disabled(actions, ALL_MOUSE_WHEEL) && r.0 == actions[ALL_MOUSE_WHEEL := true])
  {
    var enabled := !Disabled(actions, ALL_MOUSE_WHEEL);
    var delayed := actions[ALL_MOUSE_WHEEL := true];
    var timer := StartTimer(ALL_MOUSE_WHEEL, WHEEL_DELAY);
    if DrillBranch(e, drillDown) && enabled then
      (delayed, [timer, CallDrillDown(drillDown.value, d), PreventDefault])
    else if RollBranch(e, drillDown, rollUp) && enabled then
      (delayed, [timer, CallRollUp(rollUp.value), PreventDefault])
    else
      (actions, [PreventDefault])
  }

  predicate IsCall<D>(x: Effect<D>) { x.CallDrillDown? || x.CallRollUp? }

  /** While the flag is set no callback is called and the flag stays set. */
  lemma WheelWhileDisabled<D>(actions: map<string, bool>, drillDown: Option<Callback>, rollUp: Option<Callback>,
                              e: WheelEvent, d: D)
    requires Disabled(actions, ALL_MOUSE_WHEEL)
    ensures Wheel(actions, drillDown, rollUp, e, d) == (actions, [PreventDefault])
  {
  }

  /** With the flag clear, a zoom-in calls the registered drill-down callback once, with the datum, and sets the flag. */
  lemma WheelDrillsDown<D>(actions: map<string, bool>, drillDown: Callback, rollUp: Option<Callback>,
                           e: WheelEvent, d: D)
    requires !Disabled(actions, ALL_MOUSE_WHEEL) && IsZoomIn(e)
    ensures Wheel(actions, Some(drillDown), rollUp, e, d) ==
      (actions[ALL_MOUSE_WHEEL := true],
       [StartTimer(ALL_MOUSE_WHEEL, WHEEL_DELAY), CallDrillDown(drillDown, d), PreventDefault])
  {
  }

  /**
   * With the flag clear, a zoom-out calls the registered roll-up callback
   * once and sets the flag, unless the event is also a zoom-in that a
   * registered drill-down callback takes.
   */
  lemma WheelRollsUp<D>(actions: map<string, bool>, drillDown: Option<Callback>, rollUp: Callback,
                        e: WheelEvent, d: D)
    requires !Disabled(actions, ALL_MOUSE_WHEEL) && IsZoomOut(e) && !(IsZoomIn(e) && drillDown.Some?)
    ensures Wheel(actions, drillDown, Some(rollUp), e, d) ==
      (actions[ALL_MOUSE_WHEEL := true],
       [StartTimer(ALL_MOUSE_WHEEL, WHEEL_DELAY), CallRollUp(rollUp), PreventDefault])
  {
  }

  /** With no callback registered for the event's direction nothing is called and the flag is left as it was. */
  lemma WheelUnregisteredIsQuiet<D>(actions: map<string, bool>, drillDown: Option<Callback>, rollUp: Option<Callback>,
                                    e: WheelEvent, d: D)
    requires IsZoomIn(e) ==> drillDown.None?
    requires IsZoomOut(e) ==> rollUp.None?
    ensures Wheel(actions, drillDown, rollUp, e, d) == (actions, [PreventDefault])
  {
  }

  /** Every call the handler makes goes to a registered callback, and every event cancels the page scroll last. */
  lemma WheelCallsOnlyRegistered<D>(actions: map<string, bool>, drillDown: Option<Callback>, rollUp: Option<Callback>,
                                    e: WheelEvent, d: D)
    ensures var effects := Wheel(actions, drillDown, rollUp, e, d).1;
      && (forall x :: x in effects && x.CallDrillDown? ==> drillDown == Some(x.callback) && x.datum == d)
      && (forall x :: x in effects && x.CallRollUp? ==> rollUp == Some(x.callback))
      && |effects| >= 1 && effects[|effects| - 1] == PreventDefault
  {
  }

  datatype Input<D> =
    | WheelOn(e: WheelEvent, d: D)   // a wheel event on the word for datum `d`
    | Expire(name: string)           // the d3 timer of `name` fires

  /** `_disabledActions` and the effects after a sequence of inputs, the callbacks held fixed. */
  function Run<D>(actions: map<string, bool>, drillDown: Option<Callback>, rollUp: Option<Callback>,
                  inputs: seq<Input<D>>): (map<string, bool>, seq<Effect<D>>)
    decreases |inputs|
  {
    if inputs == [] then (actions, [])
    else
      var (next, out) :=
        match inputs[0]
        case Expire(name) => (actions[name := false], [])
        case WheelOn(e, d) => Wheel(actions, drillDown, rollUp, e, d);
      var (final, rest) := Run(next, drillDown, rollUp, inputs[1..]);
      (final, out + rest)
  }

  predicate NoExpiry<D>(inputs: seq<Input<D>>) {
    forall j :: 0 <= j < |inputs| ==> inputs[j] != Expire(ALL_MOUSE_WHEEL)
  }

  function CountCalls<D>(effects: seq<Effect<D>>): nat {
    if effects == [] then 0
    else (if IsCall(effects[0]) then 1 else 0) + CountCalls(effects[1..])
  }

  lemma {:induction false} CountCallsAppend<D>(a: seq<Effect<D>>, b: seq<Effect<D>>)
    ensures CountCalls(a + b) == CountCalls(a) + CountCalls(b)
    decreases |a|
  {
    if a == [] {
      assert a + b == b;
    } else {
      assert (a + b)[0] == a[0];
      assert (a + b)[1..] == a[1..] + b;
      CountCallsAppend(a[1..], b);
    }
  }

  lemma {:induction false} NoExpiryTail<D>(inputs: seq<Input<D>>)
    requires |inputs| > 0 && NoExpiry(inputs)
    ensures NoExpiry(inputs[1..]) && inputs[0] != Expire(ALL_MOUSE_WHEEL)
  {
    forall j | 0 <= j < |inputs[1..]| ensures inputs[1..][j] != Expire(ALL_MOUSE_WHEEL) {
      assert inputs[1..][j] == inputs[j + 1];
    }
  }

  /** While the cooldown lasts no callback is called, however many wheel events arrive. */
  lemma {:induction false} RunWhileDisabled<D>(actions: map<string, bool>, drillDown: Option<Callback>,
                                               rollUp: Option<Callback>, inputs: seq<Input<D>>)
    requires Disabled(actions, ALL_MOUSE_WHEEL) && NoExpiry(inputs)
    ensures Disabled(Run(actions, drillDown, rollUp, inputs).0, ALL_MOUSE_WHEEL)
    ensures forall x :: x in Run(actions, drillDown, rollUp, inputs).1 ==> x == PreventDefault
    decreases |inputs|
  {
    if inputs != [] {
      NoExpiryTail(inputs);
      match inputs[0]
      case Expire(name) =>
        RunWhileDisabled(actions[name := false], drillDown, rollUp, inputs[1..]);
      case WheelOn(e, d) =>
        WheelWhileDisabled(actions, drillDown, rollUp, e, d);
        RunWhileDisabled(actions, drillDown, rollUp, inputs[1..]);
    }
  }

  lemma {:induction false} NoCalls<D>(effects: seq<Effect<D>>)
    requires forall x :: x in effects ==> x == PreventDefault
    ensures CountCalls(effects) == 0
    decreases |effects|
  {
    if effects != [] {
      assert effects[0] in effects;
      assert forall x :: x in effects[1..] ==> x in effects;
      NoCalls(effects[1..]);
    }
  }

  /** One wheel event calls at most one callback, and only when it sets the flag. */
  lemma WheelCallsAtMostOnce<D>(actions: map<string, bool>, drillDown: Option<Callback>, rollUp: Option<Callback>,
                                e: WheelEvent, d: D)
    ensures var (after, effects) := Wheel(actions, drillDown, rollUp, e, d);
      CountCalls(effects) <= 1 && (CountCalls(effects) == 1 ==> Disabled(after, ALL_MOUSE_WHEEL))
  {
    var effects := Wheel(actions, drillDown, rollUp, e, d).1;
    if |effects| == 3 {
      assert effects[1..][1..][1..] == [];
      assert IsCall(effects[1]) && !IsCall(effects[0]) && !IsCall(effects[2]);
    } else {
      assert effects[1..] == [];
    }
  }

  /** A burst of wheel events with no expiry of the cooldown in between calls back at most once. */
  lemma {:induction false} RunCallsAtMostOnce<D>(actions: map<string, bool>, drillDown: Option<Callback>,
                                                 rollUp: Option<Callback>, inputs: seq<Input<D>>)
    requires NoExpiry(inputs)
    ensures CountCalls(Run(actions, drillDown, rollUp, inputs).1) <= 1
    decreases |inputs|
  {
    if inputs != [] {
      NoExpiryTail(inputs);
      var (next, out) :=
        match inputs[0]
        case Expire(name) => (actions[name := false], [])
        case WheelOn(e, d) => Wheel(actions, drillDown, rollUp, e, d);
      var rest := Run(next, drillDown, rollUp, inputs[1..]);
      CountCallsAppend(out, rest.1);
      if inputs[0].WheelOn? {
        WheelCallsAtMostOnce(actions, drillDown, rollUp, inputs[0].e, inputs[0].d);
      }
      if CountCalls(out) == 0 {
        RunCallsAtMostOnce(next, drillDown, rollUp, inputs[1..]);
      } else {
        RunWhileDisabled(next, drillDown, rollUp, inputs[1..]);
        NoCalls(rest.1);
      }
    }
  }

  // ---------------------------------------------------------------------
  // The chart object
  // ---------------------------------------------------------------------

  class WordCloudChart<D> {
    /** The module variables `min` and `max`, `undefined` until the first render. */
    var min: Option<real>
    var max: Option<real>
    var disabledActions: map<string, bool>
    /** `_callbackDrillDown` and `_callbackRollUp`; `undefined` is `None`. */
    var callbackDrillDownField: Option<Callback>
    var callbackRollUpField: Option<Callback>

    constructor ()
      ensures min == None && max == None && disabledActions == INITIAL_ACTIONS
      ensures CallbackDrillDown() == None && CallbackRollUp() == None
    {
      min := None;
      max := None;
      disabledActions := INITIAL_ACTIONS;
      callbackDrillDownField := None;
      callbackRollUpField := None;
    }

    /** The part of `_doRender` that is not DOM work: record the group's smallest and largest value. */
    method Render(values: seq<real>)
      requires |values| > 0
      modifies this`min, this`max
      ensures min == Some(Least(values)) && max == Some(Greatest(values))
    {
      min := Some(Least(values));
      max := Some(Greatest(values));
    }

    /** `getSize(d)`, defined once the extremes are known and differ. */
    function Size(d: real): (r: real)
      reads this
      requires min.Some? && max.Some? && min.value < max.value
      ensures min.value <= d <= max.value ==> MIN_SIZE <= r <= MAX_SIZE
    {
      var size := GetSize(min.value, max.value, d);
      if min.value <= d <= max.value then GetSizeInRange(min.value, max.value, d); size else size
    }

    /** `callbackDrillDown()`: `null` (here `None`) unless a callback is set. */
    function CallbackDrillDown(): Option<Callback>
      reads this
    {
      callbackDrillDownField
    }

    function CallbackRollUp(): Option<Callback>
      reads this
    {
      callbackRollUpField
    }

    /** `callbackDrillDown(callback)`: `None` stands for `null`, which removes the callback. */
    method SetCallbackDrillDown(callback: Option<Callback>)
      modifies this`callbackDrillDownField
      ensures CallbackDrillDown() == callback
    {
      callbackDrillDownField := callback;
    }

    method SetCallbackRollUp(callback: Option<Callback>)
      modifies this`callbackRollUpField
      ensures CallbackRollUp() == callback
    {
      callbackRollUpField := callback;
    }

    /** `_delayAction(name, delay)`. */
    method DelayAction(name: string, delay: nat) returns (timer: Effect<D>)
      modifies this`disabledActions
      ensures disabledActions == old(disabledActions)[name := true]
      ensures timer == StartTimer(name, delay)
    {
      disabledActions := disabledActions[name := true];
      timer := StartTimer(name, delay);
    }

    /** `_enableAction(name)`. */
    method EnableAction(name: string)
      modifies this`disabledActions
      ensures disabledActions == old(disabledActions)[name := false]
    {
      disabledActions := disabledActions[name := false];
    }

    /** `onMouseWheel(d)`. */
    method OnMouseWheel(e: WheelEvent, d: D) returns (effects: seq<Effect<D>>)
      modifies this`disabledActions
      ensures (disabledActions, effects) == Wheel(old(disabledActions), CallbackDrillDown(), CallbackRollUp(), e, d)
    {
      effects := [];
      if IsZoomIn(e) && CallbackDrillDown().Some? {
        if !Disabled(disabledActions, ALL_MOUSE_WHEEL) {
          var timer := DelayAction(ALL_MOUSE_WHEEL, WHEEL_DELAY);
          effects := [timer, CallDrillDown(CallbackDrillDown().value, d)];
          assert effects + [PreventDefault] == [timer, CallDrillDown(CallbackDrillDown().value, d), PreventDefault];
        }
      } else if IsZoomOut(e) && CallbackRollUp().Some? {
        if !Disabled(disabledActions, ALL_MOUSE_WHEEL) {
          var timer := DelayAction(ALL_MOUSE_WHEEL, WHEEL_DELAY);
          effects := [timer, CallRollUp(CallbackRollUp().value)];
          assert effects + [PreventDefault] == [timer, CallRollUp(CallbackRollUp().value), PreventDefault];
        }
      }
      var none: seq<Effect<D>> := [];
      assert none + [PreventDefault] == [PreventDefault];
      effects := effects + [PreventDefault];
    }
  }
}
