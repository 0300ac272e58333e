/**
 * The tooltip controller: visibility and payload state, the show-delay and duration
 * timers, the queued animation-frame layout passes, and the window resize listener.
 *
 * Timers are slots holding the pending request; the event loop is replaced by the
 * explicit `Fire...` operations. Time itself is not modelled.
 */
module TooltipController {
  import opened Wrappers
  import opened JsValues
  import opened TooltipLayout
  import Relay

  /** The arguments of `show(message, element, blocking, durationMs, delayMs, closeable, overrideSide)`. */
  datatype ShowArgs = ShowArgs(message: Option<string>, element: Option<ElementId>, blocking: bool,
                               durationMs: Option<int>, delayMs: int, closeable: bool,
                               overrideSide: Option<string>)

  /**
   * What a pending show-delay timer will apply. `layoutOverride` is the override side
   * the timer's layout routine was built with: the state's `overrideSide` at the time
   * `show` was called, not the request's own.
   */
  datatype Request = Request(message: string, element: Option<ElementId>, blocking: bool,
                             closeable: bool, durationMs: Option<int>, overrideSide: Option<string>,
                             layoutOverride: Option<string>)

  /** A requested animation frame that will run a layout pass for `element`. */
  datatype Frame = Frame(element: Option<ElementId>, overrideSide: Option<string>)

  /** The controller's state, its pending timers and requested frames. */
  datatype State = State(
    showing: bool, message: string, element: Option<ElementId>, blocking: bool, closeable: bool,
    overrideSide: Option<string>, layout: Layout,
    showDelay: Option<Request>,   // showDelayTimeoutRef
    durationPending: bool,        // showDurationRef
    frames: seq<Frame>,           // animation frames requested and not yet run
    listening: bool)              // the window resize listener is registered

  /** The state right after mounting: hidden, nothing pending. */
  const Initial := State(false, "", None, false, false, None, EmptyLayout, None, false, [], true)

  /** A pending show-delay and a pending duration timer never coexist. */
  predicate Consistent(s: State) {
    s.showDelay.Some? ==> !s.durationPending
  }

  /** The request a truthy `show` schedules, given the override side currently in force. */
  function RequestFor(a: ShowArgs, currentOverride: Option<string>): Request
    requires TruthyText(a.message)
  {
    Request(a.message.value, a.element, a.blocking, a.closeable, a.durationMs, a.overrideSide, currentOverride)
  }

  /** `clear()`: cancels the show-delay and duration timers. The animation-frame handle is
      handed to `clearTimeout`, so a requested layout pass is not cancelled. */
  function ClearStep(s: State): State {
    s.(showDelay := None, durationPending := false)
  }

  /** `hide()`. */
  function HideStep(s: State): State {
    ClearStep(s).(showing := false)
  }

  /** `show(...)`: a falsy message hides at once; otherwise clear and schedule one show-delay. */
  function ShowStep(s: State, a: ShowArgs): State {
    if !TruthyText(a.message) then HideStep(s)
    else ClearStep(s).(showDelay := Some(RequestFor(a, s.overrideSide)))
  }

  /** `_showOnDelay(...)`: shows the payload, maybe schedules the hide, requests a layout pass. */
  function ShowOnDelayStep(s: State, r: Request): State {
    s.(showing := true, message := r.message, element := r.element, blocking := r.blocking,
       closeable := r.closeable, overrideSide := r.overrideSide,
       durationPending := s.durationPending || TruthyNumber(r.durationMs),
       frames := s.frames + [Frame(r.element, r.layoutOverride)])
  }

  /** The show-delay timer elapses. */
  function FireShowDelayStep(s: State): State {
    match s.showDelay
    case None => s
    case Some(r) => ShowOnDelayStep(s.(showDelay := None), r)
  }

  /** The duration timer elapses and calls `hide`. */
  function FireDurationStep(s: State): State {
    if s.durationPending then HideStep(s) else s
  }

  /** `_setLayoutState(element)`: the layout state changes only when a placement is computed. */
  function SetLayoutStep(s: State, element: Option<ElementId>, overrideSide: Option<string>,
                         page: Page, anchorRect: Rect, bodyRect: Option<Rect>): State {
    match LayoutPass(element, overrideSide, page, anchorRect, bodyRect)
    case Placed(l) => s.(layout := l)
    case _ => s
  }

  /** The oldest requested animation frame runs its layout pass. */
  function FireFrameStep(s: State, page: Page, anchorRect: Rect, bodyRect: Option<Rect>): State {
    if s.frames == [] then s
    else SetLayoutStep(s.(frames := s.frames[1..]), s.frames[0].element, s.frames[0].overrideSide,
                       page, anchorRect, bodyRect)
  }

  /** `_onResize()`: recompute the layout for the current element, if any. */
  function ResizeStep(s: State, page: Page, anchorRect: Rect, bodyRect: Option<Rect>): State {
    if s.listening && s.element.Some? then
      SetLayoutStep(s, s.element, s.overrideSide, page, anchorRect, bodyRect)
    else s
  }

  /** Unmounting removes the resize listener; the timers and frames stay pending. */
  function UnmountStep(s: State): State {
    s.(listening := false)
  }

  /** Everything that can happen to a mounted tooltip. */
  datatype Event =
    | Published(args: ShowArgs)
    | ShowDelayElapsed
    | DurationElapsed
    | AnimationFrame(page: Page, anchorRect: Rect, bodyRect: Option<Rect>)
    | Resized(page: Page, anchorRect: Rect, bodyRect: Option<Rect>)
    | CloseClicked
    | Unmounted

  function Step(s: State, e: Event): State {
    match e
    case Published(a) => ShowStep(s, a)
    case ShowDelayElapsed => FireShowDelayStep(s)
    case DurationElapsed => FireDurationStep(s)
    case AnimationFrame(page, anchorRect, bodyRect) => FireFrameStep(s, page, anchorRect, bodyRect)
    case Resized(page, anchorRect, bodyRect) => ResizeStep(s, page, anchorRect, bodyRect)
    case CloseClicked => HideStep(s)
    case Unmounted => UnmountStep(s)
  }

  /** The state after the events `evs`, in order. */
  function Run(s: State, evs: seq<Event>): State
    decreases |evs|
  {
    if evs == [] then s else Step(Run(s, evs[..|evs| - 1]), evs[|evs| - 1])
  }

  // ---------------------------------------------------------------------------
  // Properties

  /** A falsy message hides at once and cancels both timers, but not the requested layout passes. */
  lemma ShowWithoutMessageHides(s: State, a: ShowArgs)
    requires !TruthyText(a.message)
    ensures var t := ShowStep(s, a);
            !t.showing && t.showDelay.None? && !t.durationPending && t.frames == s.frames
            && t.message == s.message && t.layout == s.layout
  {
  }

  /** A truthy message cancels the timers and leaves exactly one pending show-delay carrying
      this request; nothing visible changes yet. */
  lemma ShowWithMessageSchedules(s: State, a: ShowArgs)
    requires TruthyText(a.message)
    ensures var t := ShowStep(s, a);
            t.showDelay == Some(Request(a.message.value, a.element, a.blocking, a.closeable,
                                        a.durationMs, a.overrideSide, s.overrideSide))
            && !t.durationPending
            && t.showing == s.showing && t.message == s.message && t.element == s.element
            && t.blocking == s.blocking && t.closeable == s.closeable && t.overrideSide == s.overrideSide
            && t.layout == s.layout && t.frames == s.frames && t.listening == s.listening
  {
  }

  /** A second truthy show before the first delay fires leaves no trace of the first. */
  lemma LaterShowPreempts(s: State, a: ShowArgs, b: ShowArgs)
    requires TruthyText(a.message) && TruthyText(b.message)
    ensures ShowStep(ShowStep(s, a), b) == ShowStep(s, b)
  {
  }

  /**
   * After a burst of publishes, the last one alone decides what is pending: its request
   * when its message is truthy, nothing at all otherwise.
   */
  lemma {:induction false} LastPublishDecides(s: State, evs: seq<Event>)
    requires |evs| > 0
    requires forall i :: 0 <= i < |evs| ==> evs[i].Published?
    ensures var t := Run(s, evs);
            var last := evs[|evs| - 1].args;
            t.showDelay == (if TruthyText(last.message) then Some(RequestFor(last, s.overrideSide)) else None)
            && !t.durationPending && t.overrideSide == s.overrideSide
  {
    var prefix := evs[..|evs| - 1];
    if |prefix| == 0 {
      assert Run(s, prefix) == s;
    } else {
      assert forall i :: 0 <= i < |prefix| ==> prefix[i].Published? by {
        forall i | 0 <= i < |prefix| ensures prefix[i].Published? { assert prefix[i] == evs[i]; }
      }
      LastPublishDecides(s, prefix);
    }
  }

  /** When the show-delay fires, the stored request becomes visible; a hide is scheduled iff
      its duration is truthy; one layout pass is requested for its element. */
  lemma ShowDelayFires(s: State)
    requires Consistent(s) && s.showDelay.Some?
    ensures var r := s.showDelay.value;
            var t := FireShowDelayStep(s);
            t.showing && t.message == r.message && t.element == r.element && t.blocking == r.blocking
            && t.closeable == r.closeable && t.overrideSide == r.overrideSide
            && t.showDelay.None? && t.durationPending == TruthyNumber(r.durationMs)
            && t.frames == s.frames + [Frame(r.element, r.layoutOverride)]
  {
  }

  /** When the duration elapses, the tooltip hides and no timer is left. */
  lemma DurationHides(s: State)
    requires s.durationPending
    ensures var t := FireDurationStep(s);
            !t.showing && t.showDelay.None? && !t.durationPending
  {
  }

  /** A layout pass while the tooltip body is not rendered only consumes its frame. */
  lemma FrameWithoutBodyIsNoOp(s: State, page: Page, anchorRect: Rect)
    requires s.frames != []
    ensures FireFrameStep(s, page, anchorRect, None) == s.(frames := s.frames[1..])
  {
  }

  /** Recomputing the layout on resize is idempotent. */
  lemma ResizeIdempotent(s: State, page: Page, anchorRect: Rect, bodyRect: Option<Rect>)
    ensures var t := ResizeStep(s, page, anchorRect, bodyRect);
            ResizeStep(t, page, anchorRect, bodyRect) == t
  {
  }

  /** Unmounting cancels no timer: a pending show-delay still fires and queues a layout pass
      afterwards; only resizes stop reaching it. */
  lemma UnmountLeavesTimers(s: State, page: Page, anchorRect: Rect, bodyRect: Option<Rect>)
    requires s.showDelay.Some?
    ensures var u := UnmountStep(s);
            u.showDelay == s.showDelay && u.durationPending == s.durationPending && u.frames == s.frames
            && FireShowDelayStep(u).showDelay.None?
            && |FireShowDelayStep(u).frames| == |u.frames| + 1
            && ResizeStep(u, page, anchorRect, bodyRect) == u
  {
  }

  /** Every step keeps the timers consistent. */
  lemma StepKeepsConsistent(s: State, e: Event)
    requires Consistent(s)
    ensures Consistent(Step(s, e))
  {
  }

  /** Every run from a consistent state keeps the timers consistent. */
  lemma {:induction false} RunKeepsConsistent(s: State, evs: seq<Event>)
    requires Consistent(s)
    ensures Consistent(Run(s, evs))
  {
    if evs != [] {
      RunKeepsConsistent(s, evs[..|evs| - 1]);
      StepKeepsConsistent(Run(s, evs[..|evs| - 1]), evs[|evs| - 1]);
    }
  }

  /**
   * The first layout pass after a show is built with the override side that was in force
   * when `show` was called, not the one the request passes; the state records the new one,
   * so only a later resize places the tooltip by the requested side.
   */
  lemma FirstPassUsesEarlierOverride(s: State, a: ShowArgs, page: Page, anchorRect: Rect, body: Rect)
    requires TruthyText(a.message) && a.element.Some? && s.frames == [] && s.listening
    ensures var shown := FireFrameStep(FireShowDelayStep(ShowStep(s, a)), page, anchorRect, Some(body));
            var anchorInfo := ElementLayoutInfo(anchorRect, page);
            var bodyInfo := ElementLayoutInfo(body, page);
            shown.overrideSide == a.overrideSide
            && shown.layout == Placement(anchorInfo, bodyInfo, s.overrideSide, page.innerWidth, page.innerHeight)
            && ResizeStep(shown, page, anchorRect, Some(body)).layout
               == Placement(anchorInfo, bodyInfo, a.overrideSide, page.innerWidth, page.innerHeight)
  {
    var shown := FireShowDelayStep(ShowStep(s, a));
    assert shown.frames == [Frame(a.element, s.overrideSide)];
  }

  // ---------------------------------------------------------------------------
  // The component

  class Tooltip {
    const relay: Relay.OverlayRelay<Tooltip, ShowArgs>

    var showing: bool
    var message: string
    var element: Option<ElementId>
    var blocking: bool
    var closeable: bool
    var overrideSide: Option<string>
    var layout: Layout   // bodyOuterStyle, bodyStyle, arrowStyle and arrowClass
    var showDelayTimeout: Option<Request>
    var showDuration: bool
    var animationFrames: seq<Frame>
    var resizeListening: bool

    /** The abstract state the methods are specified against. */
    function Model(): State
      reads this
    {
      State(showing, message, element, blocking, closeable, overrideSide,
            layout,
            showDelayTimeout, showDuration, animationFrames, resizeListening)
    }

    ghost predicate Valid()
      reads this
    {
      Consistent(Model())
    }

    constructor (relay: Relay.OverlayRelay<Tooltip, ShowArgs>)
      ensures Valid() && Model() == Initial && this.relay == relay
    {
      this.relay := relay;
      showing, message, element, blocking, closeable, overrideSide := false, "", None, false, false, None;
      layout := EmptyLayout;
      showDelayTimeout, showDuration, animationFrames, resizeListening := None, false, [], true;
    }

    /** The mount effect subscribes this tooltip's `show` to its relay. */
    method Mount()
      modifies relay
      ensures relay.onShowRequest == Some(this)
    {
      relay.Subscribe(this);
    }

    /** The unmount cleanups clear the relay and remove the resize listener; timers stay. */
    method Unmount()
      requires Valid()
      modifies this, relay
      ensures Valid() && relay.onShowRequest == None
      ensures Model() == UnmountStep(old(Model()))
    {
      relay.Clear();
      resizeListening := false;
    }

    method Clear()
      modifies this
      ensures Valid() && Model() == ClearStep(old(Model()))
    {
      showDelayTimeout := None;
      showDuration := false;
    }

    method Hide()
      modifies this
      ensures Valid() && Model() == HideStep(old(Model()))
    {
      Clear();
      showing := false;
    }

    method Show(args: ShowArgs)
      requires Valid()
      modifies this
      ensures Valid() && Model() == ShowStep(old(Model()), args)
    {
      if !TruthyText(args.message) {
        Hide();
        return;
      }
      Clear();
      showDelayTimeout := Some(RequestFor(args, overrideSide));
    }

    /** `_showOnDelay(...)` with a request's arguments. */
    method ShowOnDelay(r: Request)
      modifies this
      ensures Model() == ShowOnDelayStep(old(Model()), r)
    {
      showing, message, element, blocking, closeable, overrideSide, animationFrames :=
        true, r.message, r.element, r.blocking, r.closeable, r.overrideSide,
        animationFrames + [Frame(r.element, r.layoutOverride)];
      if TruthyNumber(r.durationMs) {
        showDuration := true;
      }
    }

    /** The show-delay timer elapses and runs `_showOnDelay` with the captured request. */
    method FireShowDelay()
      requires Valid()
      modifies this
      ensures Valid() && Model() == FireShowDelayStep(old(Model()))
    {
      match showDelayTimeout
      case None =>
      case Some(r) =>
        showDelayTimeout := None;
        ShowOnDelay(r);
    }

    /** The duration timer elapses and calls `hide`. */
    method FireDuration()
      requires Valid()
      modifies this
      ensures Valid() && Model() == FireDurationStep(old(Model()))
    {
      if showDuration {
        Hide();
      }
    }

    /** `_setLayoutState(element)` with the given measurements. */
    method SetLayoutState(element: Option<ElementId>, overrideSide: Option<string>,
                          page: Page, anchorRect: Rect, bodyRect: Option<Rect>)
      requires Valid()
      modifies this
      ensures Valid() && Model() == SetLayoutStep(old(Model()), element, overrideSide, page, anchorRect, bodyRect)
    {
      var outcome := LayoutPass(element, overrideSide, page, anchorRect, bodyRect);
      if outcome.Placed? {
        layout := outcome.layout;
      }
    }

    /** The oldest requested animation frame runs. */
    method FireAnimationFrame(page: Page, anchorRect: Rect, bodyRect: Option<Rect>)
      requires Valid()
      modifies this
      ensures Valid() && Model() == FireFrameStep(old(Model()), page, anchorRect, bodyRect)
    {
      if animationFrames != [] {
        var frame := animationFrames[0];
        animationFrames := animationFrames[1..];
        SetLayoutState(frame.element, frame.overrideSide, page, anchorRect, bodyRect);
      }
    }

    /** The window is resized. */
    method OnResize(page: Page, anchorRect: Rect, bodyRect: Option<Rect>)
      requires Valid()
      modifies this
      ensures Valid() && Model() == ResizeStep(old(Model()), page, anchorRect, bodyRect)
    {
      if resizeListening && element.Some? {
        SetLayoutState(element, overrideSide, page, anchorRect, bodyRect);
      }
    }

    /** The close button is clicked. */
    method OnCloseClick()
      modifies this
      ensures Valid() && Model() == HideStep(old(Model()))
    {
      Hide();
    }
  }

  /** A caller's `tooltipRelay.show(...)`: the subscribed tooltip runs `show` once with `args`. */
  method Publish(relay: Relay.OverlayRelay<Tooltip, ShowArgs>, args: ShowArgs)
    returns (r: Result<Relay.Call<Tooltip, ShowArgs>, Relay.Fault>)
    requires relay.onShowRequest.Some? ==> relay.onShowRequest.value.Valid()
    modifies if relay.onShowRequest.Some? then {relay.onShowRequest.value} else {}
    ensures relay.onShowRequest == old(relay.onShowRequest)
    ensures r.Failure? <==> relay.onShowRequest.None?
    ensures relay.onShowRequest.Some? ==>
              var tooltip := relay.onShowRequest.value;
              r == Success(Relay.Call(tooltip, args))
              && tooltip.Valid() && tooltip.Model() == ShowStep(old(tooltip.Model()), args)
  {
    r := relay.Show(args);
    if r.Success? {
      r.value.handler.Show(args);
    }
  }
}
