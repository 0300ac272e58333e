/**
 * The toast controller: an `open` flag, the shown payload, and two timers (show-delay and
 * duration). Timers are slots holding what they will do; the `Fire...` operations stand in
 * for the event loop. Time itself is not modelled.
 */
module ToastController {
  import opened Wrappers
  import opened JsValues
  import Relay

  /** The arguments of `show(message, blocking, durationMs, stacks, delayMs, isAtTop)`. */
  datatype ShowArgs = ShowArgs(message: Option<string>, blocking: bool, durationMs: Option<int>,
                               stacks: bool, delayMs: int, isAtTop: bool)

  /** The arguments a pending show-delay timer will pass to `showOnDelay`. */
  datatype Request = Request(message: string, blocking: bool, isAtTop: bool, durationMs: Option<int>)

  /** The controller's state and its pending timers. */
  datatype State = State(
    open: bool, message: string, blocking: bool, isAtTop: bool,
    showDelay: Option<Request>,   // showDelayTimeoutRef
    durationPending: bool)        // durationTimeoutRef

  /** The state right after mounting: closed, nothing pending. */
  const Initial := State(false, "", false, false, None, false)

  /** A pending show-delay and a pending duration timer never coexist. */
  predicate Consistent(s: State) {
    s.showDelay.Some? ==> !s.durationPending
  }

  /** The request a truthy `show` schedules; `stacks` and `delayMs` are not part of it. */
  function RequestFor(a: ShowArgs): Request
    requires TruthyText(a.message)
  {
    Request(a.message.value, a.blocking, a.isAtTop, a.durationMs)
  }

  /** `hide()`: closes the toast and cancels nothing. */
  function HideStep(s: State): State {
    s.(open := false)
  }

  /** `show(...)`: a falsy message only hides; otherwise cancel both timers, schedule one show-delay. */
  function ShowStep(s: State, a: ShowArgs): State {
    if !TruthyText(a.message) then HideStep(s)
    else s.(durationPending := false, showDelay := Some(RequestFor(a)))
  }

  /** `showOnDelay(...)`: opens with the request's payload and maybe schedules the hide. */
  function ShowOnDelayStep(s: State, r: Request): State {
    s.(open := true, message := r.message, blocking := r.blocking, isAtTop := r.isAtTop,
       durationPending := s.durationPending || TruthyNumber(r.durationMs))
  }

  /** The show-delay timer elapses. */
  function FireShowDelayStep(s: State): State {
    match s.showDelay
    case None => s
    case Some(r) => ShowOnDelayStep(s.(showDelay := None), r)
  }

  /** The duration timer elapses and calls `hide`. */
  function FireDurationStep(s: State): State {
    if s.durationPending then HideStep(s.(durationPending := false)) else s
  }

  /** The unmount cleanup cancels both timers. */
  function UnmountStep(s: State): State {
    s.(showDelay := None, durationPending := false)
  }

  /** Everything that can happen to a mounted toast. */
  datatype Event = Published(args: ShowArgs) | ShowDelayElapsed | DurationElapsed | Unmounted

  function Step(s: State, e: Event): State {
    match e
    case Published(a) => ShowStep(s, a)
    case ShowDelayElapsed => FireShowDelayStep(s)
    case DurationElapsed => FireDurationStep(s)
    case Unmounted => UnmountStep(s)
  }

  /** The state after the events `evs`, in order. */
  function Run(s: State, evs: seq<Event>): State
    decreases |evs|
  {
    if evs == [] then s else Step(Run(s, evs[..|evs| - 1]), evs[|evs| - 1])
  }

  // ---------------------------------------------------------------------------
  // Properties

  /** A falsy message closes the toast and leaves both timers exactly as they were. */
  lemma ShowWithoutMessageOnlyCloses(s: State, a: ShowArgs)
    requires !TruthyText(a.message)
    ensures var t := ShowStep(s, a);
            !t.open && t.showDelay == s.showDelay && t.durationPending == s.durationPending
            && t.message == s.message && t.blocking == s.blocking && t.isAtTop == s.isAtTop
  {
  }

  /** A truthy message cancels the duration and show-delay timers and schedules exactly one
      show-delay with this request; nothing visible changes. */
  lemma ShowWithMessageSchedules(s: State, a: ShowArgs)
    requires TruthyText(a.message)
    ensures var t := ShowStep(s, a);
            t.showDelay.Some? && t.showDelay.value.message == a.message.value
            && t.showDelay.value.blocking == a.blocking && t.showDelay.value.isAtTop == a.isAtTop
            && t.showDelay.value.durationMs == a.durationMs
            && !t.durationPending
            && t.open == s.open && t.message == s.message && t.blocking == s.blocking && t.isAtTop == s.isAtTop
  {
  }

  /** The fourth argument `stacks` has no effect. */
  lemma StacksIgnored(s: State, a: ShowArgs, stacks: bool)
    ensures ShowStep(s, a.(stacks := stacks)) == ShowStep(s, a)
  {
  }

  /** A second truthy show before the first delay fires leaves no trace of the first. */
  lemma LaterShowPreempts(s: State, a: ShowArgs, b: ShowArgs)
    requires TruthyText(a.message) && TruthyText(b.message)
    ensures ShowStep(ShowStep(s, a), b) == ShowStep(s, b)
  {
  }

  /** A hide does not cancel a pending show-delay: the earlier request still opens the toast. */
  lemma HideDoesNotCancelShowDelay(s: State, a: ShowArgs, h: ShowArgs)
    requires TruthyText(a.message) && !TruthyText(h.message)
    ensures var t := FireShowDelayStep(ShowStep(ShowStep(s, a), h));
            t.open && t.message == a.message.value && t.blocking == a.blocking && t.isAtTop == a.isAtTop
  {
  }

  /**
   * In a burst of publishes, the last one with a truthy message (at index `k`) is the one
   * pending, whatever falsy publishes come after it, and no duration timer is left.
   */
  lemma {:induction false} LastTruthyPublishPending(s: State, evs: seq<Event>, k: nat)
    requires forall i :: 0 <= i < |evs| ==> evs[i].Published?
    requires k < |evs| && TruthyText(evs[k].args.message)
    requires forall i :: k < i < |evs| ==> !TruthyText(evs[i].args.message)
    ensures Run(s, evs).showDelay == Some(RequestFor(evs[k].args))
    ensures !Run(s, evs).durationPending
  {
    var prefix := evs[..|evs| - 1];
    if k < |evs| - 1 {
      forall i | 0 <= i < |prefix|
        ensures prefix[i].Published?
      {
        assert prefix[i] == evs[i];
      }
      LastTruthyPublishPending(s, prefix, k);
    }
  }

  /** When the show-delay fires, the toast opens with that same request's payload; a duration
      timer is pending afterwards iff the request's duration is truthy. */
  lemma ShowDelayFires(s: State)
    requires Consistent(s) && s.showDelay.Some?
    ensures var r := s.showDelay.value;
            var t := FireShowDelayStep(s);
            t.open && t.message == r.message && t.blocking == r.blocking && t.isAtTop == r.isAtTop
            && t.showDelay.None? && t.durationPending == TruthyNumber(r.durationMs)
  {
  }

  /** A timed request opens the toast when its delay elapses and closes it when its duration does. */
  lemma TimedToastOpensThenCloses(s: State, a: ShowArgs)
    requires Consistent(s) && TruthyText(a.message) && TruthyNumber(a.durationMs)
    ensures var shown := FireShowDelayStep(ShowStep(s, a));
            shown.open && shown.message == a.message.value && shown.durationPending
            && !FireDurationStep(shown).open
  {
  }

  /** When the duration elapses, the toast closes. */
  lemma DurationCloses(s: State)
    requires s.durationPending
    ensures !FireDurationStep(s).open && !FireDurationStep(s).durationPending
  {
  }

  /** Once unmounted, no timer event changes the state any more. */
  lemma {:induction false} NoUpdateAfterUnmount(s: State, evs: seq<Event>)
    requires forall i :: 0 <= i < |evs| ==> !evs[i].Published?
    ensures Run(UnmountStep(s), evs) == UnmountStep(s)
  {
    if evs != [] {
      var prefix := evs[..|evs| - 1];
      forall i | 0 <= i < |prefix|
        ensures !prefix[i].Published?
      {
        assert prefix[i] == evs[i];
      }
      NoUpdateAfterUnmount(s, prefix);
    }
  }

  /** Every step keeps the timers consistent. */
  lemma StepKeepsConsistent(s: State, e: Event)
    requires Consistent(s)
    ensures Consistent(Step(s, e))
  {
  }

  /** Every run from a consistent state keeps the timers consistent. */
  lemma {:induction false} RunKeepsConsistent(s: State, evs: seq<Event>)
    requires Consistent(s)
    ensures Consistent(Run(s, evs))
  {
    if evs != [] {
      RunKeepsConsistent(s, evs[..|evs| - 1]);
      StepKeepsConsistent(Run(s, evs[..|evs| - 1]), evs[|evs| - 1]);
    }
  }

  // ---------------------------------------------------------------------------
  // The component

  class Toast {
    const relay: Relay.OverlayRelay<Toast, ShowArgs>

    var open: bool
    var message: string
    var blocking: bool
    var isAtTop: bool
    var showDelayTimeout: Option<Request>
    var durationTimeout: bool

    /** The abstract state the methods are specified against. */
    function Model(): State
      reads this
    {
      State(open, message, blocking, isAtTop, showDelayTimeout, durationTimeout)
    }

    ghost predicate Valid()
      reads this
    {
      Consistent(Model())
    }

    constructor (relay: Relay.OverlayRelay<Toast, ShowArgs>)
      ensures Valid() && Model() == Initial && this.relay == relay
    {
      this.relay := relay;
      open, message, blocking, isAtTop := false, "", false, false;
      showDelayTimeout, durationTimeout := None, false;
    }

    /** The mount effect subscribes this toast's `show` to its relay. */
    method Mount()
      modifies relay
      ensures relay.onShowRequest == Some(this)
    {
      relay.Subscribe(this);
    }

    /** The two unmount cleanups: clear the relay and cancel both timers. */
    method Unmount()
      modifies this, relay
      ensures Valid() && relay.onShowRequest == None
      ensures Model() == UnmountStep(old(Model()))
    {
      relay.Clear();
      if durationTimeout {
        durationTimeout := false;
      }
      if showDelayTimeout.Some? {
        showDelayTimeout := None;
      }
    }

    method Hide()
      requires Valid()
      modifies this
      ensures Valid() && Model() == HideStep(old(Model()))
    {
      open := false;
    }

    method Show(args: ShowArgs)
      requires Valid()
      modifies this
      ensures Valid() && Model() == ShowStep(old(Model()), args)
    {
      if !TruthyText(args.message) {
        Hide();
        return;
      }
      if durationTimeout {
        durationTimeout := false;
      }
      if showDelayTimeout.Some? {
        showDelayTimeout := None;
      }
      showDelayTimeout := Some(RequestFor(args));
    }

    /** `showOnDelay(...)` with a request's arguments. */
    method ShowOnDelay(r: Request)
      modifies this
      ensures Model() == ShowOnDelayStep(old(Model()), r)
    {
      open, message, blocking, isAtTop := true, r.message, r.blocking, r.isAtTop;
      if TruthyNumber(r.durationMs) {
        durationTimeout := true;
      }
    }

    /** The show-delay timer elapses and runs `showOnDelay` with the captured request. */
    method FireShowDelay()
      requires Valid()
      modifies this
      ensures Valid() && Model() == FireShowDelayStep(old(Model()))
    {
      match showDelayTimeout
      case None =>
      case Some(r) =>
        showDelayTimeout := None;
        ShowOnDelay(r);
    }

    /** The duration timer elapses and calls `hide`. */
    method FireDuration()
      requires Valid()
      modifies this
      ensures Valid() && Model() == FireDurationStep(old(Model()))
    {
      if durationTimeout {
        durationTimeout := false;
        Hide();
      }
    }

    /** `mainStyle`: the toast's `top` style, `'4px'` when shown at the top, unset otherwise. */
    function MainStyle(): (top: Option<string>)
      reads this
      ensures top.Some? <==> isAtTop
      ensures top.Some? ==> top.value == "4px"
    {
      if isAtTop then Some("4px") else None
    }
  }

  /** A caller's `toastRelay.show(...)`: the subscribed toast runs `show` once with `args`. */
  method Publish(relay: Relay.OverlayRelay<Toast, ShowArgs>, args: ShowArgs)
    returns (r: Result<Relay.Call<Toast, ShowArgs>, Relay.Fault>)
    requires relay.onShowRequest.Some? ==> relay.onShowRequest.value.Valid()
    modifies if relay.onShowRequest.Some? then {relay.onShowRequest.value} else {}
    ensures relay.onShowRequest == old(relay.onShowRequest)
    ensures r.Failure? <==> relay.onShowRequest.None?
    ensures relay.onShowRequest.Some? ==>
              var toast := relay.onShowRequest.value;
              r == Success(Relay.Call(toast, args))
              && toast.Valid() && toast.Model() == ShowStep(old(toast.Model()), args)
  {
    r := relay.Show(args);
    if r.Success? {
      r.value.handler.Show(args);
    }
  }
}
