# react-root-overlays, modelled in Dafny

This project models the sequential core of a small React overlay library: a toast, a
positioned tooltip and a fullscreen dialog. Application code reaches each one through an
`OverlayRelay`, a single-slot holder for the overlay's `show` handler.

- `relay.dfy`: `OverlayRelay` as a class. Its one field is the stored handler. `Show`
  forwards the arguments to that handler as one call. With no handler stored, `Show`
  returns a `NotAFunction` fault. The JavaScript calls `null`/`undefined` and throws there;
  it does not drop the call silently, and the model follows the code here.
- `tooltip_layout.dfy`: the tooltip's geometry, as pure functions over `real`.
  - `ElementLayoutInfo` measures an element against the page.
  - `Placement` picks the side, computes the arrow offset, clamps on overflow
    (350px maximum width, 8px side margin), centres with the fixed 15px offset, and places
    the tooltip vertically with a 5px gap.
  - `LayoutPass` is `_setLayoutState`. It does nothing while the tooltip body is not
    rendered, and it faults when the anchor is missing.
  - Every DOM reading is a parameter: rectangles, scroll offsets, window and body sizes.
- `tooltip.dfy`, `toast.dfy`, `dialog.dfy`: each controller has the same three parts.
  - A `State` datatype.
  - One step function per operation, composed by `Run` over event sequences.
  - A class whose fields are the component's state hooks and refs. Each method is proved to
    move its `Model()` exactly as the step function says.
  - Timers are slots that hold what the timer will do. The `Fire...` methods stand in for
    the event loop.
  - The tooltip's animation frames are a queue. `clear()` hands the frame handle to
    `clearTimeout`, so a requested layout pass is never cancelled, and several can be pending.
  - `Publish` in each module connects a relay to the subscribed controller.
- `root_overlays.dfy`: the `RootOverlays` wrapping decision over the three relay-presence
  flags.

Behaviours of the code that the model keeps:
- A toast `hide` (a `show` with a falsy message) cancels no timer. A pending show-delay
  therefore still opens the toast later.
- Tooltip unmount only clears the relay and removes the resize listener. Its timers and
  frames stay pending.
- The tooltip's first layout pass after a `show` is built with the override side that was in
  force when `show` was called, not with the new request's override. The timer's closure
  captured the layout routine of that render. Only a resize uses the new side. The model
  assumes that effects have re-subscribed the relay between events.
- A dialog `show` overwrites all three fields with no defaults. An omitted `cancellable`
  is therefore falsy.

JavaScript truthiness is modelled explicitly in `js_values.dfy`. A missing value is
`None`, the empty string and `0` are falsy, and a flag is truthy only when it is `true`.

## Model

| member | source | states |
|---|---|---|
| Relay.OverlayRelay.constructor | src/Relay/OverlayRelay.js:1-13 | a new relay holds no handler |
| Relay.OverlayRelay.Show | src/Relay/OverlayRelay.js:2-4 | exactly one call of the stored handler with exactly the given arguments; a fault iff no handler is stored; the stored handler is unchanged |
| Relay.OverlayRelay.Subscribe | src/Relay/OverlayRelay.js:6-8 | the given handler is stored, replacing any earlier one |
| Relay.OverlayRelay.Clear | src/Relay/OverlayRelay.js:10-12 | the slot is empty afterwards, whatever it held |
| Relay.LastSubscribeWins | src/Relay/OverlayRelay.js:2-8 | after two subscribes a show reaches only the second handler |
| Relay.ShowBeforeSubscribeFaults | src/Relay/OverlayRelay.js:2-4 | a show on a relay never subscribed faults |
| Relay.ShowAfterClearFaults | src/Relay/OverlayRelay.js:2-12 | repeated shows each reach the handler with their own arguments; after clearing twice a show faults |
| TooltipLayout.Scroll | src/Tooltip/Tooltip.js:44-45 | the window's scroll offset is used unless it is zero, else the document element's |
| TooltipLayout.ElementLayoutInfo | src/Tooltip/Tooltip.js:42-55 | left/top are the rectangle's plus the scroll offsets; width/height are kept; left + width + right equals the body's client width and top + height + bottom its client height |
| TooltipLayout.Placement | src/Tooltip/Tooltip.js:63-123 | the side is left iff the anchor's centre is left of the screen centre; exactly one of outer left/right, equal to the anchor's; the arrow is on that side with its centre on the anchor's centre; the near-side margin is the overflow clamp plus width/2 − 15, the far-side margin is 8 only on overflow; the override 'top'/'bottom' forces the vertical side, else the anchor's vertical centre decides; top placement sets top = anchor.top + height + 5 with class TooltipArrowTop, bottom placement sets bottom = anchor.bottom + height + 5, column-reverse and TooltipArrowBottom |
| TooltipLayout.LayoutPass | src/Tooltip/Tooltip.js:57-72 | nothing is set iff the body element is absent; a missing anchor with a present body faults; otherwise the placement of the two measured elements on the window's inner size |
| TooltipLayout.RightHalfAnchorPlacesRight | src/Tooltip/Tooltip.js:73 | an anchor at left 700, width 100 on an 800px screen is placed on the right side |
| TooltipController.ShowWithoutMessageHides | src/Tooltip/Tooltip.js:157-160 | a falsy message hides at once and cancels both timers; requested layout passes stay queued; content and layout are unchanged |
| TooltipController.ShowWithMessageSchedules | src/Tooltip/Tooltip.js:191-216 | a truthy message cancels the timers and leaves exactly one show-delay carrying all six arguments and the override side in force; showing, message, element, blocking, closeable, override side, layout and frames are unchanged |
| TooltipController.LaterShowPreempts | src/Tooltip/Tooltip.js:205-214 | a second truthy show before the delay fires gives the same state as the second show alone |
| TooltipController.LastPublishDecides | src/Tooltip/Tooltip.js:191-216 | after any burst of publishes the pending show-delay is the last publish's request if its message is truthy and none otherwise; no duration timer is pending |
| TooltipController.ShowDelayFires | src/Tooltip/Tooltip.js:162-178 | the request's payload becomes visible; a hide is pending iff its duration is truthy; one layout pass for its element is queued |
| TooltipController.DurationHides | src/Tooltip/Tooltip.js:170-172 | the elapsed duration hides the tooltip and leaves no timer |
| TooltipController.FrameWithoutBodyIsNoOp | src/Tooltip/Tooltip.js:58-61 | a layout pass while the body is not rendered changes nothing but consumes its frame |
| TooltipController.ResizeIdempotent | src/Tooltip/Tooltip.js:126-130 | recomputing the layout on a resize twice with the same readings equals once |
| TooltipController.UnmountLeavesTimers | src/Tooltip/Tooltip.js:132-137 | unmount cancels no timer or frame, a pending show-delay still fires and queues one more layout pass, and resizes no longer reach it |
| TooltipController.StepKeepsConsistent | src/Tooltip/Tooltip.js:139-216 | no operation leaves a show-delay and a duration timer pending together |
| TooltipController.RunKeepsConsistent | src/Tooltip/Tooltip.js:139-216 | the same holds after any sequence of events |
| TooltipController.FirstPassUsesEarlierOverride | src/Tooltip/Tooltip.js:162-178 | the first layout pass after a show places by the override side in force when show was called; a resize then places by the request's own |
| TooltipController.Tooltip.constructor | src/Tooltip/Tooltip.js:21-35 | hidden, no element, empty styles, no timers or frames, resize listener registered |
| TooltipController.Tooltip.Mount | src/Tooltip/Tooltip.js:218-220 | the relay holds this tooltip |
| TooltipController.Tooltip.Unmount | src/Tooltip/Tooltip.js:218-223 | the relay is empty and the resize listener removed; nothing else changes |
| TooltipController.Tooltip.Clear | src/Tooltip/Tooltip.js:139-155 | show-delay and duration cancelled, frames untouched |
| TooltipController.Tooltip.Hide | src/Tooltip/Tooltip.js:157-160 | timers cancelled and the tooltip hidden |
| TooltipController.Tooltip.Show | src/Tooltip/Tooltip.js:191-216 | a falsy message hides and cancels the timers; a truthy one cancels them and leaves one show-delay with this request (ShowStep); the timer invariant is kept |
| TooltipController.Tooltip.ShowOnDelay | src/Tooltip/Tooltip.js:162-178 | shows the payload, schedules the hide on a truthy duration, queues a layout pass |
| TooltipController.Tooltip.FireShowDelay | src/Tooltip/Tooltip.js:207-214 | the pending request, if any, is applied through ShowOnDelay and the slot emptied |
| TooltipController.Tooltip.FireDuration | src/Tooltip/Tooltip.js:170-172 | a pending duration hides the tooltip |
| TooltipController.Tooltip.SetLayoutState | src/Tooltip/Tooltip.js:57-124 | the layout state becomes the computed placement, or is unchanged when the pass is skipped or faults |
| TooltipController.Tooltip.FireAnimationFrame | src/Tooltip/Tooltip.js:174-176 | the oldest queued frame runs its layout pass |
| TooltipController.Tooltip.OnResize | src/Tooltip/Tooltip.js:126-137 | while listening and an element is set, the layout is recomputed with the current override |
| TooltipController.Tooltip.OnCloseClick | src/Tooltip/Tooltip.js:225-227 | the close button hides like `hide` |
| TooltipController.Publish | src/Tooltip/Tooltip.js:191-223 | a relay show runs the subscribed tooltip's Show once with the arguments, or faults without a subscriber |
| ToastController.ShowWithoutMessageOnlyCloses | src/Toast/Toast.js:63-66 | a falsy message closes the toast and leaves both timers and the payload as they were |
| ToastController.ShowWithMessageSchedules | src/Toast/Toast.js:68-76 | a truthy message cancels both timers and schedules one show-delay with this request; nothing visible changes |
| ToastController.StacksIgnored | src/Toast/Toast.js:55-61 | the fourth argument has no effect |
| ToastController.LaterShowPreempts | src/Toast/Toast.js:72-76 | a second truthy show before the delay fires gives the same state as the second show alone |
| ToastController.HideDoesNotCancelShowDelay | src/Toast/Toast.js:31-33 | a hide between a show and its delay does not stop that show from opening the toast |
| ToastController.LastTruthyPublishPending | src/Toast/Toast.js:55-77 | after any burst of publishes the pending show-delay is the last truthy publish's request and no duration is pending |
| ToastController.ShowDelayFires | src/Toast/Toast.js:35-44 | the toast opens with that request's message, blocking and isAtTop; a duration is pending iff its duration is truthy |
| ToastController.TimedToastOpensThenCloses | src/Toast/Toast.js:35-44 | a request with a truthy duration opens the toast when its delay elapses and closes it when the duration elapses |
| ToastController.DurationCloses | src/Toast/Toast.js:41-43 | the elapsed duration closes the toast |
| ToastController.NoUpdateAfterUnmount | src/Toast/Toast.js:86-97 | after unmount no sequence of timer events changes the state |
| ToastController.StepKeepsConsistent | src/Toast/Toast.js:55-77 | no operation leaves a show-delay and a duration timer pending together |
| ToastController.RunKeepsConsistent | src/Toast/Toast.js:55-77 | the same holds after any sequence of events |
| ToastController.Toast.constructor | src/Toast/Toast.js:18-24 | closed, empty message, no timers |
| ToastController.Toast.Mount | src/Toast/Toast.js:79-80 | the relay holds this toast |
| ToastController.Toast.Unmount | src/Toast/Toast.js:79-97 | the relay is empty and both timers cancelled |
| ToastController.Toast.Hide | src/Toast/Toast.js:31-33 | only `open` becomes false |
| ToastController.Toast.Show | src/Toast/Toast.js:55-77 | a falsy message only closes; a truthy one cancels both timers and leaves one show-delay with this request (ShowStep); the timer invariant is kept |
| ToastController.Toast.ShowOnDelay | src/Toast/Toast.js:35-44 | opens with the payload and schedules the hide on a truthy duration |
| ToastController.Toast.FireShowDelay | src/Toast/Toast.js:76 | the pending request, if any, is applied through ShowOnDelay and the slot emptied |
| ToastController.Toast.FireDuration | src/Toast/Toast.js:42 | a pending duration closes the toast |
| ToastController.Toast.MainStyle | src/Toast/Toast.js:103-109 | the top style is set iff the toast is at the top, and then it is '4px' |
| ToastController.Publish | src/Toast/Toast.js:55-84 | a relay show runs the subscribed toast's Show once with the arguments, or faults without a subscriber |
| DialogController.Displayed | src/Dialog/FullscreenDialog.js:70-74 | the dialog renders something iff an element is present, and what it renders holds that element |
| DialogController.HasCloseButton | src/Dialog/FullscreenDialog.js:57-68 | the close element is rendered iff the cancellable flag is `true`; an omitted flag renders none |
| DialogController.RenderedClassName | src/Dialog/FullscreenDialog.js:76-79 | a truthy class name is used as it is, a falsy one renders as '', and it is the class name of the rendered container |
| DialogController.ShowOverwrites | src/Dialog/FullscreenDialog.js:24-28 | show stores exactly the passed values; the dialog is displayed iff the element is truthy; an omitted cancellable means no close button |
| DialogController.DismissHidesIffCancellable | src/Dialog/FullscreenDialog.js:37-43 | a dismissing click hides a cancellable dialog and changes nothing else, and changes nothing on a non-cancellable one |
| DialogController.ClicksAgree | src/Dialog/FullscreenDialog.js:37-55 | close click and background click have the same effect; an inner click has none |
| DialogController.NonCancellableStays | src/Dialog/FullscreenDialog.js:37-51 | no sequence of clicks changes a non-cancellable dialog |
| DialogController.CancellableClicks | src/Dialog/FullscreenDialog.js:37-55 | clicks on a cancellable dialog only ever hide it, and any background or close click does |
| DialogController.FullscreenDialog.constructor | src/Dialog/FullscreenDialog.js:15-17 | no element, cancellable, class name '' |
| DialogController.FullscreenDialog.Mount | src/Dialog/FullscreenDialog.js:30-31 | the relay holds this dialog |
| DialogController.FullscreenDialog.Unmount | src/Dialog/FullscreenDialog.js:30-35 | the relay is empty |
| DialogController.FullscreenDialog.Show | src/Dialog/FullscreenDialog.js:24-28 | the three fields become the passed values |
| DialogController.FullscreenDialog.OnBackgroundClicked | src/Dialog/FullscreenDialog.js:37-43 | the element is cleared iff cancellable |
| DialogController.FullscreenDialog.OnCloseClicked | src/Dialog/FullscreenDialog.js:45-51 | the element is cleared iff cancellable |
| DialogController.FullscreenDialog.OnInnerClick | src/Dialog/FullscreenDialog.js:53-55 | the dialog's state is unchanged |
| DialogController.Publish | src/Dialog/FullscreenDialog.js:24-35 | a relay show runs the subscribed dialog's Show once with the arguments, or faults without a subscriber |
| Wrapper.RootOverlays | src/Wrapper/RootOverlays.js:12-25 | at most one overlay wraps the children; all relays present gives the children unchanged; otherwise the outermost missing overlay (toast, then tooltip, then dialog) wraps the children directly |
| Wrapper.AsWrittenDropsTooltipAndDialog | src/Wrapper/RootOverlays.js:14-24 | with no relay provided only the toast is mounted |
| Wrapper.NestedRootOverlays | src/Wrapper/RootOverlays.js:7-11 | one wrapper per missing relay |
| Wrapper.NestedMountsEveryMissingOverlayInOrder | src/Wrapper/RootOverlays.js:7-11 | every missing overlay is mounted exactly once, toast outside tooltip outside dialog |

## Left out

- Rendering is not modelled: JSX, CSS classes, the `useMemo` markup and `blockingDisplay`
  are pure view. For the dialog, only the shape of the rendered tree is kept
  (`DialogController.Render`): whether anything renders, the content element, the close
  element and the container's class name.
- Event `stopPropagation` is browser plumbing and is left out.
- The `withModule` dependency-injection wiring and the `Module` files are left out. Each
  module only constructs a fresh relay, so every controller takes its relay as a
  constructor argument.
- Time is not modelled. `delayMs` is carried in the arguments but never read: a truthy
  show always schedules its show-delay, even with a zero delay, so it does not show at
  once and a later show or a tooltip hide can still cancel it. `durationMs` only decides
  whether the hide timer is scheduled. The order in which pending timers and frames fire
  is chosen by whoever calls the `Fire...` methods.
- Timer handles are not modelled. A fired timer leaves its slot empty; in the code the ref
  keeps the stale handle, and clearing that handle later does nothing. Passing an
  animation-frame handle to `clearTimeout` could cancel an unrelated timeout with the same
  id; that effect is not modelled.
- The tooltip's `hideTimeoutRef` is only ever cleared, never set, so it has no slot.
- DOM measurement is taken as input. `NaN`, infinite values and a missing `pageXOffset`
  are not modelled.
- Default argument values are not modelled. Every argument is passed explicitly.
- Messages are strings, and the content of the dialog is an element identity. Other
  React nodes are not modelled.
- React's scheduling of state updates and effects is not modelled. Each operation applies
  its updates at once, and the relay is re-subscribed before the next event arrives.
  `setState` on an unmounted component is not distinguished from a state change.
- The tooltip's close click is allowed in any state. The code only renders the button
  while the tooltip is shown and closeable; the effect is `hide` either way.

## Findings

| source | as written | input that shows it | evidently intended | confidence | as-written member | corrected member |
|---|---|---|---|---|---|---|
| src/Wrapper/RootOverlays.js:14-24 | each missing relay rebinds `element` to an overlay wrapping `children`, discarding any wrapper built before | no relay provided: only `<Toast>` is returned, and tooltip and dialog are never mounted | each missing overlay wraps the element built so far: "wraps children in all the useful root overlays … in proper order" (lines 7-11) | medium, not executed | Wrapper.AsWrittenDropsTooltipAndDialog | Wrapper.NestedMountsEveryMissingOverlayInOrder |
