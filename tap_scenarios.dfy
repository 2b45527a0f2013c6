/** Client code driving a TapMachine through the scenarios of the plugin's
    browser tests (test/assets/js/test.js), with events shaped as its
    `simulate` helper builds them. Each method proves, from the machine's
    contracts alone, how many taps the scenario dispatches. */
module TapScenarios {
  import opened TapEvents
  import opened TapRules
  import opened TapMachines

  const TouchA := Element(1)
  const TouchB := Element(2)

  function PointAt(x: int, y: int): Point
  {
    Point(x, y, x, y, x, y)
  }

  /** The touch list `simulate` builds, for the sizes the tests use: no
      point, one, or (for any `n` of 2 or more) two copies of `p`. */
  function UpToTwoCopies(p: Point, n: nat): seq<Point>
  {
    if n == 0 then [] else if n == 1 then [p] else [p, p]
  }

  /** A simulated touch event at (x, y) with `n` changed touches and `active`
      listed touches (each capped at two). */
  function TouchEventAt(target: Element, time: int, x: int, y: int, n: nat, active: nat): Event
  {
    var p := PointAt(x, y);
    Event(target, time, false, None, Some(NativeEvent(p, Some(UpToTwoCopies(p, active)), Some(UpToTwoCopies(p, n)))))
  }

  /** A simulated mouse event at (x, y): no touch lists. */
  function MouseEventAt(target: Element, time: int, x: int, y: int): Event
  {
    Event(target, time, false, None, Some(NativeEvent(PointAt(x, y), None, None)))
  }

  /** An event made by jQuery's `trigger`: no browser event behind it. */
  function Triggered(target: Element): Event
  {
    Event(target, 0, true, None, None)
  }

  method StartEnd(touchEndTime: int, endX: int, endY: int) returns (taps: nat)
    ensures taps == if touchEndTime < MaxTapTime && -MaxTapDelta < endX < MaxTapDelta && -MaxTapDelta < endY < MaxTapDelta then 1 else 0
  {
    var m := new TapMachine(true);
    m.Enable();
    var threw := m.Deliver(TouchStart, TouchEventAt(TouchA, 0, 0, 0, 1, 1));
    threw := m.Deliver(TouchEnd, TouchEventAt(TouchA, touchEndTime, endX, endY, 1, 0));
    assert !threw;
    taps := |m.dispatched|;
    if taps == 1 {
      assert m.dispatched[0].target == TouchA;
    }
  }

  method TimingAndDistance()
  {
    var taps := StartEnd(0, 0, 0);
    assert taps == 1;
    taps := StartEnd(300, 0, 0);
    assert taps == 1;
    taps := StartEnd(1000, 0, 0);
    assert taps == 0;
    taps := StartEnd(0, 10, 10);
    assert taps == 1;
    taps := StartEnd(0, 500, 100);
    assert taps == 0;
  }

  /** "will not trigger if more than one touch". */
  method TwoFingers()
  {
    var m := new TapMachine(true);
    m.Enable();
    var threw := m.Deliver(TouchStart, TouchEventAt(TouchA, 0, 0, 0, 1, 1));
    assert m.isTracking && m.values.count == 1;
    threw := m.Deliver(TouchStart, TouchEventAt(TouchA, 0, 0, 0, 2, 2));
    assert m.isTracking && m.values.count == 2 && m.dispatched == [];
    threw := m.Deliver(TouchEnd, TouchEventAt(TouchA, 0, 0, 0, 1, 1));
    assert !m.isTracking && m.dispatched == [];
    threw := m.Deliver(TouchEnd, TouchEventAt(TouchA, 0, 0, 0, 1, 0));
    assert m.dispatched == [];
  }

  /** "will ignore mouse events if touchstart fires first": on a touch
      runtime mouse notifications reach no listener. */
  method TouchThenMouse()
  {
    var m := new TapMachine(true);
    m.Enable();
    var threw := m.Deliver(TouchStart, TouchEventAt(TouchB, 0, 0, 0, 1, 1));
    threw := m.Deliver(Other("mousedown"), MouseEventAt(TouchB, 0, 0, 0));
    threw := m.Deliver(Other("mouseup"), MouseEventAt(TouchB, 0, 0, 0));
    threw := m.Deliver(TouchEnd, TouchEventAt(TouchB, 0, 0, 0, 1, 0));
    assert |m.dispatched| == 1 && m.dispatched[0].target == TouchB;
  }

  /** `count` holds the touch count of the latest touchstart, so a session
      whose second start saw two touches still taps when a third start, with
      the session still open, reports one touch. A browser lists both fingers
      in that third start's touches, so the plugin sees it only when the
      touchend that lifted a finger never reached `document.body` (its
      propagation stopped below), leaving the session open. */
  method RecountedSession()
  {
    var m := new TapMachine(true);
    m.Enable();
    var threw := m.Deliver(TouchStart, TouchEventAt(TouchA, 0, 0, 0, 1, 1));
    assert m.isTracking && m.values.count == 1;
    threw := m.Deliver(TouchStart, TouchEventAt(TouchA, 0, 0, 0, 2, 2));
    assert m.isTracking && m.values.count == 2 && m.dispatched == [];
    threw := m.Deliver(TouchStart, TouchEventAt(TouchA, 0, 0, 0, 1, 1));
    assert m.isTracking && m.values.count == 1 && m.dispatched == [];
    threw := m.Deliver(TouchEnd, TouchEventAt(TouchA, 0, 0, 0, 1, 0));
    assert |m.dispatched| == 1;
  }

  /** The tests' clean-up triggers a touchend on the body: it closes any open
      session without a tap, and the next end dispatches nothing. */
  method TriggeredEndCloses()
  {
    var m := new TapMachine(true);
    m.Enable();
    var threw := m.Deliver(TouchStart, TouchEventAt(TouchA, 0, 0, 0, 1, 1));
    threw := m.Deliver(TouchEnd, Triggered(TouchA));
    assert !threw && !m.isTracking && m.dispatched == [];
    threw := m.Deliver(TouchEnd, TouchEventAt(TouchA, 0, 0, 0, 1, 0));
    assert m.dispatched == [];
  }

  /** The click fallback: a genuine click becomes one tap on its target, a
      triggered one none; enabling twice attaches one listener. */
  method ClickFallback()
  {
    var m := new TapMachine(false);
    m.Enable();
    m.Enable();
    assert m.listeners == {Click};
    var threw := m.Deliver(Click, Triggered(TouchA));
    assert m.dispatched == [];
    threw := m.Deliver(Click, MouseEventAt(TouchB, 0, 7, 9));
    assert |m.dispatched| == 1 && m.dispatched[0].target == TouchB;
    assert m.dispatched[0].event.props["pageX"] == 7;
    m.Disable();
    threw := m.Deliver(Click, MouseEventAt(TouchB, 0, 7, 9));
    assert |m.dispatched| == 1;
  }
}
