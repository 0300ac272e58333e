/**
 * The fullscreen dialog controller: three pieces of state (element, cancellable flag,
 * class name) overwritten by `show` and by the dismissing clicks.
 */
module DialogController {
  import opened Wrappers
  import opened JsValues
  import Relay

  /** Identity of the content element a caller puts into the dialog. */
  type ContentId = nat

  /** The arguments of `show(ele, cancellable, className)`; each may be `null`/`undefined`. */
  datatype ShowArgs = ShowArgs(element: Option<ContentId>, cancellable: Option<bool>, className: Option<string>)

  /** The dialog's state. */
  datatype State = State(element: Option<ContentId>, isCancellable: Option<bool>, className: Option<string>)

  /** No element, cancellable, empty class name. */
  const Initial := State(None, Some(true), Some(""))

  /** What the dialog renders: the outer container's class name, the content element, and
      whether the close element sits beside it. */
  datatype View = View(className: string, content: ContentId, closeButton: bool)

  /** The rendered tree: nothing without an element, otherwise the outer and inner containers
      holding the element and, when the cancellable flag is truthy, the close element. */
  function Render(s: State): Option<View> {
    match s.element
    case None => None
    case Some(e) =>
      Some(View(if TruthyText(s.className) then s.className.value else "", e, TruthyFlag(s.isCancellable)))
  }

  /** The dialog is displayed iff an element is present. */
  predicate Displayed(s: State): (d: bool)
    ensures d <==> Render(s).Some?
    ensures d ==> Render(s).value.content == s.element.value
  {
    s.element.Some?
  }

  /** The close button is rendered iff the cancellable flag is `true`; an omitted flag or
      `false` renders none. */
  predicate HasCloseButton(s: State): (h: bool)
    ensures h <==> s.isCancellable == Some(true)
    ensures Displayed(s) ==> (h <==> Render(s).value.closeButton)
  {
    TruthyFlag(s.isCancellable)
  }

  /** `show(...)`: every field is overwritten with the value passed, with no defaults. */
  function ShowStep(s: State, a: ShowArgs): State {
    State(a.element, a.cancellable, a.className)
  }

  /** A background or close click: clears the element when cancellable, else nothing. */
  function DismissStep(s: State): State {
    if !TruthyFlag(s.isCancellable) then s else s.(element := None)
  }

  /** The class name the outer container renders with: a falsy one renders as `''`. */
  function RenderedClassName(s: State): (c: string)
    ensures TruthyText(s.className) ==> c == s.className.value
    ensures !TruthyText(s.className) ==> c == ""
    ensures Displayed(s) ==> Render(s).value.className == c
  {
    if TruthyText(s.className) then s.className.value else ""
  }

  /** Everything that can happen to a mounted dialog. */
  datatype Event = Published(args: ShowArgs) | BackgroundClicked | CloseClicked | InnerClicked

  function Step(s: State, e: Event): State {
    match e
    case Published(a) => ShowStep(s, a)
    case BackgroundClicked => DismissStep(s)
    case CloseClicked => DismissStep(s)
    case InnerClicked => s
  }

  /** The state after the events `evs`, in order. */
  function Run(s: State, evs: seq<Event>): State
    decreases |evs|
  {
    if evs == [] then s else Step(Run(s, evs[..|evs| - 1]), evs[|evs| - 1])
  }

  // ---------------------------------------------------------------------------
  // Properties

  /** `show` forgets the previous state entirely and displays the dialog iff its element is
      truthy; an omitted `cancellable` leaves the dialog without close button. */
  lemma ShowOverwrites(s: State, a: ShowArgs)
    ensures var t := ShowStep(s, a);
            t.element == a.element && t.isCancellable == a.cancellable && t.className == a.className
            && (Displayed(t) <==> a.element.Some?)
            && (a.cancellable.None? ==> !HasCloseButton(t))
  {
  }

  /** A dismissing click hides a cancellable dialog and changes nothing else; on a
      non-cancellable dialog it changes nothing. */
  lemma DismissHidesIffCancellable(s: State)
    ensures var t := DismissStep(s);
            t.isCancellable == s.isCancellable && t.className == s.className
            && (HasCloseButton(s) ==> !Displayed(t))
            && (!HasCloseButton(s) ==> t == s)
  {
  }

  /** The close and background clicks have the same effect, and an inner click none. */
  lemma ClicksAgree(s: State)
    ensures Step(s, CloseClicked) == Step(s, BackgroundClicked)
    ensures Step(s, InnerClicked) == s
  {
  }

  /** Without a new `show`, no sequence of clicks can hide a non-cancellable dialog. */
  lemma {:induction false} NonCancellableStays(s: State, evs: seq<Event>)
    requires !HasCloseButton(s)
    requires forall i :: 0 <= i < |evs| ==> !evs[i].Published?
    ensures Run(s, evs) == s
  {
    if evs != [] {
      var prefix := evs[..|evs| - 1];
      forall i | 0 <= i < |prefix|
        ensures !prefix[i].Published?
      {
        assert prefix[i] == evs[i];
      }
      NonCancellableStays(s, prefix);
    }
  }

  /** Without a new `show`, clicks on a cancellable dialog can only hide it: once any
      dismissing click happens it is hidden, otherwise it is unchanged. */
  lemma {:induction false} CancellableClicks(s: State, evs: seq<Event>)
    requires HasCloseButton(s)
    requires forall i :: 0 <= i < |evs| ==> !evs[i].Published?
    ensures Run(s, evs) == s || Run(s, evs) == s.(element := None)
    ensures (exists i :: 0 <= i < |evs| && !evs[i].InnerClicked?) ==> Run(s, evs) == s.(element := None)
  {
    if evs != [] {
      var prefix := evs[..|evs| - 1];
      forall i | 0 <= i < |prefix|
        ensures !prefix[i].Published?
      {
        assert prefix[i] == evs[i];
      }
      CancellableClicks(s, prefix);
      if exists i :: 0 <= i < |evs| && !evs[i].InnerClicked? {
        var i :| 0 <= i < |evs| && !evs[i].InnerClicked?;
        if i < |prefix| {
          assert !prefix[i].InnerClicked?;
        }
      }
    }
  }

  // ---------------------------------------------------------------------------
  // The component

  class FullscreenDialog {
    const relay: Relay.OverlayRelay<FullscreenDialog, ShowArgs>

    var element: Option<ContentId>
    var isCancellable: Option<bool>
    var className: Option<string>

    /** The abstract state the methods are specified against. */
    function Model(): State
      reads this
    {
      State(element, isCancellable, className)
    }

    constructor (relay: Relay.OverlayRelay<FullscreenDialog, ShowArgs>)
      ensures Model() == Initial && this.relay == relay
    {
      this.relay := relay;
      element, isCancellable, className := None, Some(true), Some("");
    }

    /** The mount effect subscribes this dialog's `show` to its relay. */
    method Mount()
      modifies relay
      ensures relay.onShowRequest == Some(this)
    {
      relay.Subscribe(this);
    }

    /** The unmount cleanup clears the relay. */
    method Unmount()
      modifies relay
      ensures relay.onShowRequest == None
    {
      relay.Clear();
    }

    method Show(args: ShowArgs)
      modifies this
      ensures Model() == ShowStep(old(Model()), args)
    {
      element, isCancellable, className := args.element, args.cancellable, args.className;
    }

    method OnBackgroundClicked()
      modifies this
      ensures Model() == DismissStep(old(Model()))
    {
      if !TruthyFlag(isCancellable) {
        return;
      }
      element := None;
    }

    method OnCloseClicked()
      modifies this
      ensures Model() == DismissStep(old(Model()))
    {
      if !TruthyFlag(isCancellable) {
        return;
      }
      element := None;
    }

    /** A click inside the dialog only stops propagation. */
    method OnInnerClick()
      ensures Model() == old(Model())
    {
    }
  }

  /** A caller's `dialogRelay.show(...)`: the subscribed dialog runs `show` once with `args`. */
  method Publish(relay: Relay.OverlayRelay<FullscreenDialog, ShowArgs>, args: ShowArgs)
    returns (r: Result<Relay.Call<FullscreenDialog, ShowArgs>, Relay.Fault>)
    modifies if relay.onShowRequest.Some? then {relay.onShowRequest.value} else {}
    ensures relay.onShowRequest == old(relay.onShowRequest)
    ensures r.Failure? <==> relay.onShowRequest.None?
    ensures relay.onShowRequest.Some? ==>
              var dialog := relay.onShowRequest.value;
              r == Success(Relay.Call(dialog, args)) && dialog.Model() == ShowStep(old(dialog.Model()), args)
  {
    r := relay.Show(args);
    if r.Success? {
      r.value.handler.Show(args);
    }
  }
}
