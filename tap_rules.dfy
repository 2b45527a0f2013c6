/** The tap detector's state (TOUCH_VALUES, Tap.isTracking, Tap.isEnabled,
    the listeners on document.body, the taps dispatched so far) and one pure
    step function per handler of jquery.tap.js. The class in TapMachines
    implements each handler imperatively and is proved equal to these. */
module TapRules {
  import opened TapEvents

  /** The browser notifications the plugin can listen to on document.body. */
  datatype EventKind = TouchStart | TouchEnd | TouchCancel | Click | Other(name: string)

  /** TOUCH_VALUES: the session record. `el` is null until the first start. */
  datatype TouchValues = TouchValues(el: Option<Element>, x: int, y: int, count: nat, cancel: bool, start: int)

  datatype MachineState = MachineState(
    values: TouchValues,
    isEnabled: bool,
    isTracking: bool,
    listeners: set<EventKind>,
    dispatched: seq<Dispatch>)

  /** The state after a handler ran; `threw` is set when it stopped on a
      TypeError, in which case `next` holds the writes made before it. */
  datatype Outcome = Outcome(next: MachineState, threw: bool)

  const InitialValues := TouchValues(None, 0, 0, 0, false, 0)
  const Initial := MachineState(InitialValues, false, false, {}, [])

  /** The listener set `enable` installs: the touch triplet, or the click
      fallback when touch is not supported. */
  function ListenerSet(touch: bool): set<EventKind>
  {
    if touch then {TouchStart, TouchEnd, TouchCancel} else {Click}
  }

  /** What every handler keeps true: a tracked session has an origin element
      and is not cancelled (so `cancel` also marks a session already resolved),
      and the attached listeners are exactly those the enabled flag says. */
  ghost predicate Inv(touch: bool, st: MachineState)
  {
    (st.isTracking ==> st.values.el.Some? && !st.values.cancel) &&
    st.listeners == (if st.isEnabled then ListenerSet(touch) else {})
  }

  function Abs(n: int): nat
  {
    if n < 0 then -n else n
  }

  function Max(a: int, b: int): int
  {
    if a < b then b else a
  }

  /** `Math.max(|pageX - x|, |pageY - y|)`: distance from the start point. */
  function Delta(p: Point, v: TouchValues): int
  {
    Max(Abs(p.pageX - v.x), Abs(p.pageY - v.y))
  }

  /** `_isTap(e)`; `None` where it throws (no terminating touch to read). */
  function IsTap(e: Event, v: TouchValues, isTracking: bool): Option<bool>
  {
    if e.isTrigger then Some(false)
    else
      match EndTouch(e)
      case None => None
      case Some(p) =>
        Some(e.timeStamp - v.start < MaxTapTime &&
             Delta(p, v) < MaxTapDelta &&
             !v.cancel &&
             v.count == 1 &&
             isTracking)
  }

  /** `Tap.enable`. */
  function EnableStep(touch: bool, st: MachineState): MachineState
  {
    if st.isEnabled then st
    else st.(isEnabled := true, listeners := st.listeners + ListenerSet(touch))
  }

  /** `Tap.disable`. */
  function DisableStep(touch: bool, st: MachineState): MachineState
  {
    if !st.isEnabled then st
    else st.(isEnabled := false, listeners := st.listeners - ListenerSet(touch))
  }

  /** `Tap.onTouchStart`. */
  function StartStep(st: MachineState, e: Event): Outcome
  {
    if e.originalEvent.None? || e.originalEvent.value.touches.None? then Outcome(st, true)
    else
      var touches := e.originalEvent.value.touches.value;
      var counted := st.(values := st.values.(count := |touches|));
      if st.isTracking then Outcome(counted, false)
      else
        var begun := counted.(isTracking := true,
                              values := counted.values.(cancel := false, start := e.timeStamp, el := Some(e.target)));
        if |touches| == 0 then Outcome(begun, true)
        else Outcome(begun.(values := begun.values.(x := touches[0].pageX, y := touches[0].pageY)), false)
  }

  /** `Tap.onTouchCancel`. */
  function CancelStep(st: MachineState): MachineState
  {
    st.(isTracking := false, values := st.values.(cancel := true))
  }

  /** `Tap.onTouchEnd`: dispatch a tap on the stored element when `_isTap`
      holds, then cancel. */
  function EndStep(st: MachineState, e: Event): Outcome
  {
    match IsTap(e, st.values, st.isTracking)
    case None => Outcome(st, true)
    case Some(false) => Outcome(CancelStep(st), false)
    case Some(true) =>
      if st.values.el.None? then Outcome(st, true)
      else
        match CreatedEvent(EventName, e)
        case None => Outcome(st, true)
        case Some(ev) =>
          Outcome(CancelStep(st.(dispatched := st.dispatched + [Dispatch(st.values.el.value, ev)])), false)
  }

  /** `Tap.onClick`. */
  function ClickStep(st: MachineState, e: Event): Outcome
  {
    if e.isTrigger then Outcome(st, false)
    else
      match CreatedEvent(EventName, e)
      case None => Outcome(st, true)
      case Some(ev) => Outcome(st.(dispatched := st.dispatched + [Dispatch(e.target, ev)]), false)
  }

  /** The host delivering one notification to document.body: the handler runs
      only when its listener is attached. */
  function Deliver(st: MachineState, kind: EventKind, e: Event): Outcome
  {
    if kind !in st.listeners then Outcome(st, false)
    else
      match kind
      case TouchStart => StartStep(st, e)
      case TouchEnd => EndStep(st, e)
      case TouchCancel => Outcome(CancelStep(st), false)
      case Click => ClickStep(st, e)
      case Other(_) => Outcome(st, false)
  }

  // ---------------------------------------------------------------------
  // Classification

  /** The distance test is a square of side 2 * MaxTapDelta around the start
      point, not a circle. */
  lemma DeltaIsChebyshev(p: Point, v: TouchValues)
    ensures Delta(p, v) < MaxTapDelta <==>
      -MaxTapDelta < p.pageX - v.x < MaxTapDelta && -MaxTapDelta < p.pageY - v.y < MaxTapDelta
  {
  }

  /** A jQuery-triggered event is never a tap, whatever the session. */
  lemma TriggeredIsNeverTap(e: Event, v: TouchValues, isTracking: bool)
    requires e.isTrigger
    ensures IsTap(e, v, isTracking) == Some(false)
  {
  }

  /** `_isTap` holds exactly when the event is genuine, its terminating touch
      is readable and the five conditions hold. */
  lemma IsTapExactly(e: Event, v: TouchValues, isTracking: bool)
    ensures IsTap(e, v, isTracking) == Some(true) <==>
      !e.isTrigger && EndTouch(e).Some? &&
      e.timeStamp - v.start < MaxTapTime &&
      -MaxTapDelta < EndTouch(e).value.pageX - v.x < MaxTapDelta &&
      -MaxTapDelta < EndTouch(e).value.pageY - v.y < MaxTapDelta &&
      !v.cancel && v.count == 1 && isTracking
    ensures IsTap(e, v, isTracking).None? <==> !e.isTrigger && EndTouch(e).None?
  {
    if !e.isTrigger && EndTouch(e).Some? {
      DeltaIsChebyshev(EndTouch(e).value, v);
    }
  }

  // ---------------------------------------------------------------------
  // One handler at a time

  /** onTouchStart always records the number of touches, once it can read
      them; on a tracked session it changes nothing else. */
  lemma StartWhileTracking(st: MachineState, e: Event)
    requires st.isTracking
    ensures var o := StartStep(st, e);
      o.threw <==> e.originalEvent.None? || e.originalEvent.value.touches.None?
    ensures var o := StartStep(st, e);
      !o.threw ==> o.next == st.(values := st.values.(count := |e.originalEvent.value.touches.value|))
    ensures var o := StartStep(st, e);
      o.threw ==> o.next == st
  {
  }

  /** onTouchStart on an idle machine begins a session at the event's target,
      time and first touch. */
  lemma StartWhenIdle(st: MachineState, e: Event, touches: seq<Point>)
    requires !st.isTracking
    requires e.originalEvent.Some? && e.originalEvent.value.touches == Some(touches) && |touches| > 0
    ensures var o := StartStep(st, e);
      !o.threw && o.next.isTracking && !o.next.values.cancel &&
      o.next.values == TouchValues(Some(e.target), touches[0].pageX, touches[0].pageY, |touches|, false, e.timeStamp) &&
      o.next.isEnabled == st.isEnabled && o.next.listeners == st.listeners && o.next.dispatched == st.dispatched
  {
  }

  /** onTouchStart on an idle machine with an empty touch list throws at
      `touch.pageX`, after it has already begun the session: tracking is on,
      cancel off, time and target recorded, the start point left as it was. */
  lemma StartWhenIdleEmptyTouches(st: MachineState, e: Event)
    requires !st.isTracking
    requires e.originalEvent.Some? && e.originalEvent.value.touches == Some([])
    ensures var o := StartStep(st, e);
      o.threw && o.next.isTracking &&
      o.next.values == TouchValues(Some(e.target), st.values.x, st.values.y, 0, false, e.timeStamp) &&
      o.next.isEnabled == st.isEnabled && o.next.listeners == st.listeners && o.next.dispatched == st.dispatched
  {
  }

  /** onTouchEnd that does not throw always closes the session, dispatches at
      most one tap, and only to the stored element; it dispatches one exactly
      when `_isTap` holds. */
  lemma EndClosesSession(st: MachineState, e: Event)
    ensures var o := EndStep(st, e);
      !o.threw ==>
        (!o.next.isTracking && o.next.values.cancel &&
         o.next.values == st.values.(cancel := true) &&
         o.next.isEnabled == st.isEnabled && o.next.listeners == st.listeners)
    ensures var o := EndStep(st, e);
      o.threw ==> o.next == st
    ensures var o := EndStep(st, e);
      o.next.dispatched == st.dispatched ||
      (IsTap(e, st.values, st.isTracking) == Some(true) &&
       |o.next.dispatched| == |st.dispatched| + 1 &&
       o.next.dispatched[..|st.dispatched|] == st.dispatched &&
       Some(o.next.dispatched[|st.dispatched|].target) == st.values.el &&
       Some(o.next.dispatched[|st.dispatched|].event) == CreatedEvent(EventName, e))
    ensures var o := EndStep(st, e);
      !o.threw && IsTap(e, st.values, st.isTracking) == Some(true) ==>
        o.next.dispatched == st.dispatched + [Dispatch(st.values.el.value, CreatedEvent(EventName, e).value)]
  {
  }

  /** On a consistent state, onTouchEnd throws only when the terminating
      touch (or, for a tap, the source point) cannot be read. */
  lemma EndThrowsOnlyOnUnreadableTouch(touch: bool, st: MachineState, e: Event)
    requires Inv(touch, st)
    ensures EndStep(st, e).threw <==>
      IsTap(e, st.values, st.isTracking).None? ||
      (IsTap(e, st.values, st.isTracking) == Some(true) && SourceTouch(e).None?)
  {
  }

  /** After an end, a second end with no start in between dispatches nothing. */
  lemma SecondEndDispatchesNothing(st: MachineState, e1: Event, e2: Event)
    requires !EndStep(st, e1).threw
    ensures var mid := EndStep(st, e1).next;
      EndStep(mid, e2).next.dispatched == mid.dispatched
  {
  }

  /** onTouchCancel is idempotent and disqualifies the session: no end that
      follows it dispatches anything. */
  lemma CancelDisqualifies(st: MachineState, e: Event)
    ensures CancelStep(CancelStep(st)) == CancelStep(st)
    ensures !CancelStep(st).isTracking && CancelStep(st).values.cancel
    ensures IsTap(e, CancelStep(st).values, CancelStep(st).isTracking) != Some(true)
    ensures EndStep(CancelStep(st), e).next.dispatched == st.dispatched
  {
  }

  /** onClick dispatches exactly one tap, on the click's own target, unless
      the click was triggered by jQuery, and then nothing. */
  lemma ClickDispatchesOnce(st: MachineState, e: Event)
    ensures var o := ClickStep(st, e);
      e.isTrigger ==> o == Outcome(st, false)
    ensures var o := ClickStep(st, e);
      !e.isTrigger && SourceTouch(e).Some? ==>
        !o.threw &&
        o.next.dispatched == st.dispatched + [Dispatch(e.target, CreatedEvent(EventName, e).value)] &&
        o.next.values == st.values && o.next.isTracking == st.isTracking
    ensures var o := ClickStep(st, e);
      !e.isTrigger && SourceTouch(e).None? ==> o == Outcome(st, true)
  {
  }

  /** enable and disable are idempotent; enable attaches exactly one listener
      set, and disable after enable restores the disabled state. */
  lemma EnableDisable(touch: bool, st: MachineState)
    requires Inv(touch, st)
    ensures EnableStep(touch, EnableStep(touch, st)) == EnableStep(touch, st)
    ensures DisableStep(touch, DisableStep(touch, st)) == DisableStep(touch, st)
    ensures EnableStep(touch, st).isEnabled && EnableStep(touch, st).listeners == ListenerSet(touch)
    ensures !DisableStep(touch, st).isEnabled && DisableStep(touch, st).listeners == {}
    ensures !st.isEnabled ==> DisableStep(touch, EnableStep(touch, st)) == st
  {
  }

  /** The touch and click listener sets never meet. */
  lemma ListenerSetsExclusive(touch: bool)
    ensures Click in ListenerSet(touch) <==> !touch
    ensures TouchStart in ListenerSet(touch) <==> touch
    ensures TouchEnd in ListenerSet(touch) <==> touch
    ensures TouchCancel in ListenerSet(touch) <==> touch
  {
  }

  /** Every handler keeps the invariant, including when it throws. */
  lemma DeliverKeepsInv(touch: bool, st: MachineState, kind: EventKind, e: Event)
    requires Inv(touch, st)
    ensures Inv(touch, Deliver(st, kind, e).next)
    ensures Inv(touch, EnableStep(touch, st)) && Inv(touch, DisableStep(touch, st))
  {
  }

  /** A full session on an idle machine, from a one-finger start to a genuine
      end: one tap is dispatched on the start's target exactly when the time
      and distance bounds hold, carrying the end's coordinates. */
  lemma SingleTouchSession(st: MachineState, start: Event, end: Event, p: Point, q: Point)
    requires !st.isTracking
    requires start.originalEvent.Some? && start.originalEvent.value.touches == Some([p])
    requires !end.isTrigger && EndTouch(end) == Some(q) && SourceTouch(end).Some?
    ensures var s1 := StartStep(st, start).next;
      var o := EndStep(s1, end);
      !o.threw && !o.next.isTracking &&
      o.next.dispatched ==
        st.dispatched +
        (if end.timeStamp - start.timeStamp < MaxTapTime &&
            Max(Abs(q.pageX - p.pageX), Abs(q.pageY - p.pageY)) < MaxTapDelta
         then [Dispatch(start.target, TapEvent(EventName, end.originalEvent.value, CopiedProps(SourceTouch(end).value)))]
         else [])
  {
  }
}
