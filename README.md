# jQuery Tap plugin: a verified model of the tap detector

The plugin turns a touch lifecycle (touchstart, touchend, touchcancel) or, on
a runtime without touch, a click, into one synthetic `tap` event, triggered
on the element where the interaction began. This project models its core,
`jquery.tap.js`, and the small `update-json` build task.

- `tap_events.dfy` (module `TapEvents`): the events the plugin reads (the
  jQuery event, its `originalEvent`, touch lists and coordinates), the
  constants `MAX_TAP_DELTA` = 40, `MAX_TAP_TIME` = 400 and `EVENT_VARIABLES`,
  and `_createEvent` as a method with its counting loop, specified by the
  function `CreatedEvent`.
- `tap_rules.dfy` (module `TapRules`): the session record `TOUCH_VALUES`, the
  flags `Tap.isTracking` / `Tap.isEnabled`, the listeners attached to
  `document.body` and the log of dispatched taps, as one state value; `_isTap`
  as a function; one step function per handler; lemmas about single steps.
- `tap_machine.dfy` (module `TapMachines`): the `Tap` object as a class whose
  handlers update the fields in place, in the plugin's order; each is proved
  to end in the state its step function gives, and to keep the invariant.
- `tap_traces.dfy` (module `TapTraces`): sequences of notifications, and what
  holds across them (no tap without a start, multi-touch never taps, clicks
  become taps, count is written only by touchstart).
- `tap_scenarios.dfy` (module `TapScenarios`): client code running the
  scenarios of the plugin's browser tests on a `TapMachine`.
- `update_json.dfy` (module `UpdateJson`): the field-patching loop of the
  `update-json` task and its properties.

A JavaScript property read on `undefined` throws a TypeError. The plugin never
checks for it, so a handler given a malformed event stops part-way. The model
keeps these paths: the lookups return `None` where the code would throw, each
handler reports `threw`, and the state holds the writes made before the throw.
For example, a touchstart with an empty `touches` list on an idle machine has
already set `isTracking`, `cancel`, `start` and `$el` when `touch.pageX` throws.
The lemmas then show when a handler cannot throw.

Where the code and what its browser tests (test/assets/js/test.js) expect
could part, the model follows the code:

- The test "will not trigger if more than one touch"
  (test/assets/js/test.js:224-233) expects a session whose touchstart saw two
  touches never to tap. In the code, `count` is overwritten by every
  touchstart, including one that arrives while a session is open. A later
  start reporting a single touch would re-qualify the session
  (`TapScenarios.RecountedSession`). A browser lists every finger still down
  in `touches`, so it never delivers such a start to the plugin, provided
  every touchend and touchcancel reaches `document.body`. A handler on a
  descendant that stops their propagation keeps the session open, and a later
  one-finger start then re-qualifies it. `TwoFingerSessionNeverTaps` proves
  the test's expectation for every run in which no touchstart reports exactly
  one touch.
- The browser tests' "Mouse Events" cases drive mousedown/mouseup. The code
  listens only to `click` on a runtime without touch. The model follows the
  code: mouse notifications reach no listener, and every genuine click becomes
  a tap with no time or distance bound.

## Model

| member | source | states |
|---|---|---|
| TapEvents.CreateEvent | jquery.tap.js:151-166 | the loop over EVENT_VARIABLES returns exactly `CreatedEvent`, and fails exactly where reading the source point throws |
| TapEvents.CreatedEventCopiesCoordinates | jquery.tap.js:151-166 | the created event has type `tap` (as asked) and exactly the six coordinate properties, each equal to the first changed touch's, or to the browser event's own when it has no touch list |
| TapRules.DeltaIsChebyshev | jquery.tap.js:182-188 | the distance test accepts exactly the points strictly inside the 80-by-80 square around the start point |
| TapRules.TriggeredIsNeverTap | jquery.tap.js:176-178 | an event with `isTrigger` set is never a tap, whatever the session state |
| TapRules.IsTapExactly | jquery.tap.js:175-193 | `_isTap` holds if and only if the event is genuine, its end touch is readable, time < 400, both displacements are within ±40 exclusive, not cancelled, count is 1 and tracking; it throws exactly when a genuine event has no readable end touch |
| TapRules.StartWhileTracking | jquery.tap.js:273-278 | on a tracked session, touchstart only rewrites `count` with the number of touches; it throws exactly when the touch list cannot be read, and then changes nothing |
| TapRules.StartWhenIdle | jquery.tap.js:280-287 | on an idle machine, touchstart sets tracking, clears cancel, and records the target, time, first touch's page coordinates and touch count; flags, listeners and the tap log are untouched |
| TapRules.StartWhenIdleEmptyTouches | jquery.tap.js:280-287 | on an idle machine, touchstart with an empty touch list throws after setting tracking, clearing cancel, recording target and time and setting count to 0, with the start point left as it was |
| TapRules.EndClosesSession | jquery.tap.js:297-303 | an end that completes leaves tracking off and cancel on, with nothing else in the session changed; at most one tap is dispatched, only when `_isTap` holds, to the stored `$el`, carrying `CreatedEvent`; a completed end where `_isTap` holds dispatches exactly that tap; an end that throws changes nothing |
| TapRules.EndThrowsOnlyOnUnreadableTouch | jquery.tap.js:297-303 | on a consistent state, touchend throws exactly when `_isTap` throws, or when it holds and the created event's source point cannot be read |
| TapRules.SecondEndDispatchesNothing | jquery.tap.js:186-192 | a second end with no start in between dispatches nothing |
| TapRules.CancelDisqualifies | jquery.tap.js:311-314 | touchcancel is idempotent, sets tracking off and cancel on, and no end after it dispatches anything |
| TapRules.ClickDispatchesOnce | jquery.tap.js:322-328 | a genuine click dispatches exactly one tap on its own target and changes no session state; a triggered click does nothing; a click with no readable coordinates throws and changes nothing |
| TapRules.EnableDisable | jquery.tap.js:225-264 | enable and disable are idempotent; after enable exactly the listener set chosen by touch support is attached; after disable none; disable after enable restores the disabled state |
| TapRules.ListenerSetsExclusive | jquery.tap.js:232-240 | the click listener is attached exactly when touch is not supported, each of the touch triplet exactly when it is |
| TapRules.DeliverKeepsInv | jquery.tap.js:225-328 | every handler, and enable and disable, keep the invariant: a tracked session has an origin element and is not cancelled, and the listeners attached are those the enabled flag says |
| TapRules.SingleTouchSession | jquery.tap.js:272-303 | a one-finger start followed by a genuine end dispatches exactly one tap on the start's target, with the end's coordinates, if and only if less than 400 has elapsed and the distance is below 40; otherwise none |
| TapMachines.TapMachine.constructor | jquery.tap.js:90-140 | the machine starts disabled, idle, with no listeners, no taps and TOUCH_VALUES at their initial values |
| TapMachines.TapMachine.Enable | jquery.tap.js:225-241 | the in-place update ends in `EnableStep`: enabled, with exactly the listener set for the runtime |
| TapMachines.TapMachine.Disable | jquery.tap.js:248-264 | the in-place update ends in `DisableStep`: disabled, with no listeners |
| TapMachines.TapMachine.OnTouchStart | jquery.tap.js:272-288 | the in-place update ends in `StartStep`, including the state left by a throw; count is the number of touches; on a tracked session origin, position, time and cancel are unchanged |
| TapMachines.TapMachine.OnTouchEnd | jquery.tap.js:297-303 | the in-place update ends in `EndStep`; when it completes, tracking is off and cancel on; it adds at most one tap |
| TapMachines.TapMachine.OnTouchCancel | jquery.tap.js:311-314 | the in-place update ends in `CancelStep`: tracking off, cancel on |
| TapMachines.TapMachine.OnClick | jquery.tap.js:322-328 | the in-place update ends in `ClickStep`; a triggered click adds no tap |
| TapMachines.TapMachine.Deliver | jquery.tap.js:232-240 | a notification runs the handler of its kind only when that listener is attached on document.body |
| TapTraces.RunKeepsInv | jquery.tap.js:225-328 | every sequence of notifications keeps the invariant |
| TapTraces.RunOnlyAppends | jquery.tap.js:297-328 | taps already dispatched are never withdrawn or reordered |
| TapTraces.CountOnlyWrittenByStart | jquery.tap.js:272-314 | a sequence with no touchstart leaves `count` unchanged |
| TapTraces.NoTapWithoutStart | jquery.tap.js:186-192 | on a touch runtime with no session tracked, no sequence without a touchstart dispatches a tap, and tracking stays off |
| TapTraces.MultiTouchNeverTaps | jquery.tap.js:272-303 | on a touch runtime, while count is not 1 and no touchstart reports exactly one touch, nothing is dispatched |
| TapTraces.TwoFingerSessionNeverTaps | test/assets/js/test.js:224-233 | a touchstart seeing two or more touches, followed by any notifications whose touchstarts never report exactly one touch, dispatches nothing |
| TapTraces.NothingRunsWhileDisabled | jquery.tap.js:248-264 | with no listeners attached, no notification changes any state |
| TapTraces.ClicksBecomeTaps | jquery.tap.js:322-328 | on an enabled runtime without touch, a sequence of notifications dispatches one tap per genuine click whose coordinates can be read, on the click's target, in order, and nothing else |
| TapScenarios.StartEnd | test/assets/js/test.js:154-203 | a simulated one-finger touchstart at the origin and touchend gives one tap exactly when the end comes before 400 and within 40 of the start (the touch tests' 300 and 1000 and move of 10, and the 500-by-100 move of the mouse test at test.js:353-360 applied to touch) |
| UpdateJson.UpdateFields | tasks/update-json.js:8-13 | the loop over `Object.keys(fields)` ends in `Patched`, whatever the key order |
| UpdateJson.PatchedKeepsKeys | tasks/update-json.js:10-11 | the object's key set is unchanged: fields it lacks are not added |
| UpdateJson.PatchedValues | tasks/update-json.js:9-11 | a member named in `fields` takes the field's value; every other member keeps its value |
| UpdateJson.PatchedIdempotent | tasks/update-json.js:8-13 | applying the same update twice gives the same object as applying it once |
| UpdateJson.PatchedUnrelatedFields | tasks/update-json.js:10 | fields naming only absent members leave the object unchanged |

## Left out

- Capability detection (`'ontouchstart' in window`, `DocumentTouch`) probes the browser; it is the `touch` parameter of the machine, fixed at construction.
- TapMachines.TapMachine.Enable: assumes `document.body` exists. `enable` sets `isEnabled` before calling `$(document.body).on(...)`; run before `<body>` exists (the `setup` hook firing for a `tap` binding made in a head script), `.on` attaches nothing, the flag stays true, and every later `enable` returns early, so no listener is ever attached. The model, and the invariant that the listeners match the enabled flag, do not cover that case.
- The `$.event.special.tap.setup` hook is a jQuery callback that calls `enable` when a `tap` handler is first bound; the model exposes `Enable` and does not model jQuery's handler registry.
- jQuery's event propagation (bubbling, delegated selectors, namespaces such as `tap.tap1`) belongs to the host library; a dispatch is one record `(target, event)` appended to the log. The browser tests' counts of handler calls on ancestors are therefore not modelled.
- Handlers bound by consumers on `tap` run synchronously inside `trigger` and could re-enter the plugin; the model treats a dispatch as atomic.
- TapRules.EndClosesSession: assumes `trigger` returns. jQuery does not catch errors thrown by consumers' `tap` handlers, so when one throws, `onTouchEnd` stops after the tap has gone out and `onTouchCancel` never runs: the session stays tracked and not cancelled, a later touchstart only rewrites `count`, and the next end is measured against the old origin, time and position. The model's dispatch cannot fail, so it cannot reach that state.
- `$.Event(originalEvent)` copies other properties of the browser event lazily; the model records the browser event inside the tap event and models only the type and the six copied coordinates.
- The listeners are identified by event kind; the `._tap` namespace and the handler identities passed to `.on`/`.off` are implicit.
- JavaScript numbers are floating point; coordinates and timestamps are integers here, so NaN from a missing coordinate is not modelled.
- test/assets/js/jquery.simulate.js and the mocha/sinon harness are not part of this model; their scenarios appear as `TapScenarios`.
- Gruntfile.js holds only build configuration and is not part of this model.
- UpdateJson.UpdateFields: the file read (`grunt.file.readJSON`), the write with `JSON.stringify`, and the log line are I/O and are left out; the loaded value is assumed to be an object, and `fields` to be present.
- UpdateJson.UpdateFields: `hasOwnProperty` is modelled as membership in the object's members; an object with a member named `hasOwnProperty` that shadows the method is not modelled.
