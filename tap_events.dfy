/** Events seen and produced by the tap plugin (jquery.tap.js), and the
    construction of the synthetic `tap` event (`_createEvent`).

    A JavaScript property read on `undefined` throws a TypeError; the lookups
    below return `None` exactly where the plugin's code would throw. */
module TapEvents {

  datatype Option<T> = None | Some(value: T)

  /** An element of the page, known only by its identity. */
  datatype Element = Element(id: nat)

  /** The six coordinate properties the plugin copies (EVENT_VARIABLES). A
      touch point and a mouse event both carry them. */
  datatype Point = Point(clientX: int, clientY: int, screenX: int, screenY: int, pageX: int, pageY: int)

  /** The browser's own event (`e.originalEvent`): its own coordinates, and the
      `touches` / `changedTouches` lists, which mouse events do not have. */
  datatype NativeEvent = NativeEvent(coords: Point, touches: Option<seq<Point>>, changedTouches: Option<seq<Point>>)

  /** The jQuery event handed to a handler. `originalEvent` is absent for events
      made by jQuery's `trigger`, which also sets `isTrigger`. */
  datatype Event = Event(
    target: Element,
    timeStamp: int,
    isTrigger: bool,
    changedTouches: Option<seq<Point>>,
    originalEvent: Option<NativeEvent>)

  /** The synthetic event: a new jQuery event around the original one, whose
      type is overridden and whose coordinate properties are copied. */
  datatype TapEvent = TapEvent(eventType: string, original: NativeEvent, props: map<string, int>)

  /** One `trigger` of a synthetic event on an element. */
  datatype Dispatch = Dispatch(target: Element, event: TapEvent)

  const EventName: string := "tap"
  const MaxTapDelta: int := 40
  const MaxTapTime: int := 400
  const EventVariables: seq<string> := ["clientX", "clientY", "screenX", "screenY", "pageX", "pageY"]

  /** `p[name]` for one of the copied property names. */
  function Coord(p: Point, name: string): int
    requires name in EventVariables
  {
    match name
    case "clientX" => p.clientX
    case "clientY" => p.clientY
    case "screenX" => p.screenX
    case "screenY" => p.screenY
    case "pageX" => p.pageX
    case _ => p.pageY
  }

  /** `e.originalEvent.changedTouches[0]`, or `e.originalEvent` itself when it
      has no touch list: the point `_createEvent` copies from. */
  function SourceTouch(e: Event): Option<Point>
  {
    match e.originalEvent
    case None => None
    case Some(ne) =>
      match ne.changedTouches
      case None => Some(ne.coords)
      case Some(ts) => if |ts| == 0 then None else Some(ts[0])
  }

  /** `e.changedTouches[0]`, else `e.originalEvent.changedTouches[0]`: the
      terminating touch `_isTap` measures. */
  function EndTouch(e: Event): Option<Point>
  {
    match e.changedTouches
    case Some(ts) => if |ts| == 0 then None else Some(ts[0])
    case None =>
      match e.originalEvent
      case None => None
      case Some(ne) =>
        match ne.changedTouches
        case None => None
        case Some(ts) => if |ts| == 0 then None else Some(ts[0])
  }

  /** The coordinate properties copied from `p`. */
  function CopiedProps(p: Point): map<string, int>
  {
    map name | name in EventVariables :: Coord(p, name)
  }

  /** What `_createEvent(eventType, e)` returns, or `None` where it throws. */
  function CreatedEvent(eventType: string, e: Event): Option<TapEvent>
  {
    match SourceTouch(e)
    case None => None
    case Some(p) => Some(TapEvent(eventType, e.originalEvent.value, CopiedProps(p)))
  }

  /** `_createEvent`: the counting loop over EVENT_VARIABLES. */
  method CreateEvent(eventType: string, e: Event) returns (r: Option<TapEvent>)
    ensures r == CreatedEvent(eventType, e)
  {
    if e.originalEvent.None? {
      return None;
    }
    var original := e.originalEvent.value;
    var touch: Point;
    if original.changedTouches.Some? {
      if |original.changedTouches.value| == 0 {
        return None;
      }
      touch := original.changedTouches.value[0];
    } else {
      touch := original.coords;
    }
    var props: map<string, int> := map[];
    var i := 0;
    while i < |EventVariables|
      invariant 0 <= i <= |EventVariables|
      invariant props == map name | name in EventVariables[..i] :: Coord(touch, name)
    {
      props := props[EventVariables[i] := Coord(touch, EventVariables[i])];
      i := i + 1;
    }
    assert EventVariables[..i] == EventVariables;
    r := Some(TapEvent(eventType, original, props));
  }

  /** The created event has the requested type, exactly the six coordinate
      properties, each equal to the source point's, and it exists exactly
      when the source point can be read. */
  lemma CreatedEventCopiesCoordinates(eventType: string, e: Event)
    ensures CreatedEvent(eventType, e).Some? <==> SourceTouch(e).Some?
    ensures SourceTouch(e).Some? ==>
      var ev, p := CreatedEvent(eventType, e).value, SourceTouch(e).value;
      ev.eventType == eventType &&
      ev.props.Keys == {"clientX", "clientY", "screenX", "screenY", "pageX", "pageY"} &&
      ev.props["clientX"] == p.clientX && ev.props["clientY"] == p.clientY &&
      ev.props["screenX"] == p.screenX && ev.props["screenY"] == p.screenY &&
      ev.props["pageX"] == p.pageX && ev.props["pageY"] == p.pageY
  {
  }
}
