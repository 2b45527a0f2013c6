/** The `Tap` object of jquery.tap.js together with its TOUCH_VALUES record:
    every handler updates the fields in place, in the order the plugin does,
    and is proved to end in the state the matching step function of TapRules
    gives. The touch-capability flag is fixed when the machine is made. */
module TapMachines {
  import opened TapEvents
  import opened TapRules

  class TapMachine {
    /** TOUCH, decided once when the plugin loads. */
    const touch: bool

    var values: TouchValues
    var isEnabled: bool
    var isTracking: bool
    /** The `._tap` listeners attached to document.body. */
    var listeners: set<EventKind>
    /** Every tap triggered so far, in order. */
    var dispatched: seq<Dispatch>

    function State(): MachineState
      reads this
    {
      MachineState(values, isEnabled, isTracking, listeners, dispatched)
    }

    ghost predicate Valid()
      reads this
    {
      Inv(touch, State())
    }

    constructor (touch: bool)
      ensures this.touch == touch && State() == Initial && Valid()
    {
      this.touch := touch;
      values := InitialValues;
      isEnabled := false;
      isTracking := false;
      listeners := {};
      dispatched := [];
    }

    method Enable()
      requires Valid()
      modifies this
      ensures Valid() && State() == EnableStep(touch, old(State()))
      ensures isEnabled && listeners == ListenerSet(touch)
    {
      if isEnabled {
        return;
      }
      isEnabled := true;
      if touch {
        listeners := listeners + {TouchStart};
        listeners := listeners + {TouchEnd};
        listeners := listeners + {TouchCancel};
      } else {
        listeners := listeners + {Click};
      }
    }

    method Disable()
      requires Valid()
      modifies this
      ensures Valid() && State() == DisableStep(touch, old(State()))
      ensures !isEnabled && listeners == {}
    {
      if !isEnabled {
        return;
      }
      isEnabled := false;
      if touch {
        listeners := listeners - {TouchStart};
        listeners := listeners - {TouchEnd};
        listeners := listeners - {TouchCancel};
      } else {
        listeners := listeners - {Click};
      }
    }

    /** `threw` reports the TypeError the plugin raises when the event has no
        readable touch list, or an empty one on a new session. */
    method OnTouchStart(e: Event) returns (threw: bool)
      requires Valid()
      modifies this
      ensures Valid() && Outcome(State(), threw) == StartStep(old(State()), e)
      ensures !threw ==> values.count == |e.originalEvent.value.touches.value|
      ensures old(isTracking) ==>
        values.el == old(values.el) && values.x == old(values.x) && values.y == old(values.y) &&
        values.cancel == old(values.cancel) && values.start == old(values.start)
    {
      if e.originalEvent.None? || e.originalEvent.value.touches.None? {
        return true;
      }
      var touches := e.originalEvent.value.touches.value;
      values := values.(count := |touches|);
      if isTracking {
        return false;
      }
      isTracking := true;
      values := values.(cancel := false);
      values := values.(start := e.timeStamp);
      values := values.(el := Some(e.target));
      if |touches| == 0 {
        return true;
      }
      var first := touches[0];
      values := values.(x := first.pageX);
      values := values.(y := first.pageY);
      threw := false;
    }

    method OnTouchCancel(e: Event)
      requires Valid()
      modifies this
      ensures Valid() && State() == CancelStep(old(State()))
      ensures !isTracking && values.cancel
    {
      isTracking := false;
      values := values.(cancel := true);
    }

    method OnTouchEnd(e: Event) returns (threw: bool)
      requires Valid()
      modifies this
      ensures Valid() && Outcome(State(), threw) == EndStep(old(State()), e)
      ensures !threw ==> !isTracking && values.cancel
      ensures |dispatched| <= |old(dispatched)| + 1
    {
      var isTap := IsTap(e, values, isTracking);
      if isTap.None? {
        return true;
      }
      if isTap.value {
        var ev := CreateEvent(EventName, e);
        if ev.None? {
          return true;
        }
        dispatched := dispatched + [Dispatch(values.el.value, ev.value)];
      }
      OnTouchCancel(e);
      threw := false;
    }

    method OnClick(e: Event) returns (threw: bool)
      requires Valid()
      modifies this
      ensures Valid() && Outcome(State(), threw) == ClickStep(old(State()), e)
      ensures e.isTrigger ==> dispatched == old(dispatched)
    {
      if e.isTrigger {
        return false;
      }
      var ev := CreateEvent(EventName, e);
      if ev.None? {
        return true;
      }
      dispatched := dispatched + [Dispatch(e.target, ev.value)];
      threw := false;
    }

    /** The host delivering a notification to document.body: the matching
        handler runs only when its listener is attached. */
    method Deliver(kind: EventKind, e: Event) returns (threw: bool)
      requires Valid()
      modifies this
      ensures Valid() && Outcome(State(), threw) == TapRules.Deliver(old(State()), kind, e)
    {
      if kind !in listeners {
        return false;
      }
      match kind
      case TouchStart => threw := OnTouchStart(e);
      case TouchEnd => threw := OnTouchEnd(e);
      case TouchCancel => OnTouchCancel(e); threw := false;
      case Click => threw := OnClick(e);
      case Other(_) => threw := false;
    }
  }
}
