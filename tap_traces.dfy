/** Properties of whole sequences of notifications delivered to the tap
    detector, stated over the step functions of TapRules. A handler that
    throws leaves the state it reached, and the host carries on with the next
    notification. */
module TapTraces {
  import opened TapEvents
  import opened TapRules

  datatype Delivery = Delivery(kind: EventKind, event: Event)

  /** The state after delivering `trace`, in order, starting from `st`. */
  function Run(st: MachineState, trace: seq<Delivery>): MachineState
    decreases |trace|
  {
    if trace == [] then st
    else Run(Deliver(st, trace[0].kind, trace[0].event).next, trace[1..])
  }

  /** `touches.length` as onTouchStart reads it, when it can. */
  function TouchCount(e: Event): Option<nat>
  {
    if e.originalEvent.None? || e.originalEvent.value.touches.None? then None
    else Some(|e.originalEvent.value.touches.value|)
  }

  lemma {:induction false} RunKeepsInv(touch: bool, st: MachineState, trace: seq<Delivery>)
    requires Inv(touch, st)
    ensures Inv(touch, Run(st, trace))
    decreases |trace|
  {
    if trace != [] {
      DeliverKeepsInv(touch, st, trace[0].kind, trace[0].event);
      RunKeepsInv(touch, Deliver(st, trace[0].kind, trace[0].event).next, trace[1..]);
    }
  }

  /** Taps are only ever appended, never withdrawn or reordered. */
  lemma {:induction false} RunOnlyAppends(st: MachineState, trace: seq<Delivery>)
    ensures |st.dispatched| <= |Run(st, trace).dispatched|
    ensures Run(st, trace).dispatched[..|st.dispatched|] == st.dispatched
    decreases |trace|
  {
    if trace != [] {
      var next := Deliver(st, trace[0].kind, trace[0].event).next;
      assert next.dispatched[..|st.dispatched|] == st.dispatched;
      RunOnlyAppends(next, trace[1..]);
    }
  }

  /** `count` is written by touchstart alone: no end, cancel, click or other
      notification changes it. */
  lemma {:induction false} CountOnlyWrittenByStart(st: MachineState, trace: seq<Delivery>)
    requires forall i :: 0 <= i < |trace| ==> trace[i].kind != TouchStart
    ensures Run(st, trace).values.count == st.values.count
    decreases |trace|
  {
    if trace != [] {
      CountOnlyWrittenByStart(Deliver(st, trace[0].kind, trace[0].event).next, trace[1..]);
    }
  }

  /** On a touch runtime, once no session is tracked, nothing is dispatched
      until the next touchstart: a second end, a late cancel, mouse events
      or triggered events cannot produce a tap. */
  lemma {:induction false} NoTapWithoutStart(st: MachineState, trace: seq<Delivery>)
    requires Inv(true, st) && !st.isTracking
    requires forall i :: 0 <= i < |trace| ==> trace[i].kind != TouchStart
    ensures Run(st, trace).dispatched == st.dispatched
    ensures !Run(st, trace).isTracking
    decreases |trace|
  {
    if trace != [] {
      var next := Deliver(st, trace[0].kind, trace[0].event).next;
      DeliverKeepsInv(true, st, trace[0].kind, trace[0].event);
      assert next.dispatched == st.dispatched && !next.isTracking;
      NoTapWithoutStart(next, trace[1..]);
    }
  }

  /** On a touch runtime, while `count` is not 1 and no touchstart reports
      exactly one touch, no tap is dispatched. */
  lemma {:induction false} MultiTouchNeverTaps(st: MachineState, trace: seq<Delivery>)
    requires Inv(true, st) && st.values.count != 1
    requires forall i :: 0 <= i < |trace| && trace[i].kind == TouchStart ==> TouchCount(trace[i].event) != Some(1)
    ensures Run(st, trace).dispatched == st.dispatched
    ensures Run(st, trace).values.count != 1
    decreases |trace|
  {
    if trace != [] {
      var next := Deliver(st, trace[0].kind, trace[0].event).next;
      DeliverKeepsInv(true, st, trace[0].kind, trace[0].event);
      assert next.dispatched == st.dispatched && next.values.count != 1;
      MultiTouchNeverTaps(next, trace[1..]);
    }
  }

  /** A session whose touchstart saw two or more touches never yields a tap,
      as long as no later touchstart reports exactly one touch. A browser
      lists every finger still down in `touches`, so this holds whenever each
      touchend and touchcancel reaches `document.body`. */
  lemma TwoFingerSessionNeverTaps(st: MachineState, start: Event, trace: seq<Delivery>)
    requires Inv(true, st)
    requires TouchCount(start).Some? && TouchCount(start).value >= 2
    requires forall i :: 0 <= i < |trace| && trace[i].kind == TouchStart ==> TouchCount(trace[i].event) != Some(1)
    ensures Run(st, [Delivery(TouchStart, start)] + trace).dispatched == st.dispatched
  {
    var first := [Delivery(TouchStart, start)] + trace;
    assert first[1..] == trace;
    var next := Deliver(st, TouchStart, start).next;
    DeliverKeepsInv(true, st, TouchStart, start);
    if st.isEnabled {
      assert next.values.count == TouchCount(start).value;
      MultiTouchNeverTaps(next, trace);
    } else {
      assert next == st;
      assert forall i :: 0 <= i < |trace| ==> trace[i].kind !in next.listeners;
      NothingRunsWhileDisabled(next, trace);
    }
  }

  /** Before enable, or after disable, no notification reaches the detector. */
  lemma {:induction false} NothingRunsWhileDisabled(st: MachineState, trace: seq<Delivery>)
    requires st.listeners == {}
    ensures Run(st, trace) == st
    decreases |trace|
  {
    if trace != [] {
      NothingRunsWhileDisabled(st, trace[1..]);
    }
  }

  /** On a runtime without touch, every genuine click whose coordinates can be
      read dispatches exactly one tap, on the click's target, in order; a
      triggered click, a click that throws, and every other notification
      dispatch nothing. */
  lemma {:induction false} ClicksBecomeTaps(st: MachineState, trace: seq<Delivery>)
    requires Inv(false, st) && st.isEnabled
    ensures Run(st, trace).dispatched == st.dispatched + ClickTaps(trace)
    decreases |trace|
  {
    if trace != [] {
      var next := Deliver(st, trace[0].kind, trace[0].event).next;
      DeliverKeepsInv(false, st, trace[0].kind, trace[0].event);
      assert next.dispatched == st.dispatched + ClickTap(trace[0]);
      ClicksBecomeTaps(next, trace[1..]);
    }
  }

  /** The tap one click yields on a runtime without touch. */
  function ClickTap(d: Delivery): seq<Dispatch>
  {
    if d.kind == Click && !d.event.isTrigger && CreatedEvent(EventName, d.event).Some?
    then [Dispatch(d.event.target, CreatedEvent(EventName, d.event).value)]
    else []
  }

  /** The taps a run of notifications yields on a runtime without touch. */
  function ClickTaps(trace: seq<Delivery>): seq<Dispatch>
    decreases |trace|
  {
    if trace == [] then [] else ClickTap(trace[0]) + ClickTaps(trace[1..])
  }
}
