/**
 * The root wrapper: which overlays are mounted around the application's children,
 * given which relays the surrounding module already provides.
 */
module Wrapper {

  datatype Overlay = Toast | Tooltip | FullscreenDialog

  /** The element tree `RootOverlays` returns: the children, possibly inside overlays. */
  datatype Element = Children | Wrapped(overlay: Overlay, inner: Element)

  /** How many overlays enclose the children. */
  function Depth(e: Element): nat {
    match e
    case Children => 0
    case Wrapped(_, inner) => 1 + Depth(inner)
  }

  /** The overlays from the outside in. */
  function Overlays(e: Element): (os: seq<Overlay>)
    ensures |os| == Depth(e)
  {
    match e
    case Children => []
    case Wrapped(o, inner) => [o] + Overlays(inner)
  }

  /**
   * `RootOverlays` as written: each missing relay rebinds the result to that overlay
   * wrapped around `children` itself, so a later check discards an earlier wrapper.
   */
  function RootOverlays(hasToastRelay: bool, hasTooltipRelay: bool, hasDialogRelay: bool): (e: Element)
    ensures Depth(e) <= 1
    ensures hasToastRelay && hasTooltipRelay && hasDialogRelay ==> e == Children
    ensures !hasToastRelay ==> e == Wrapped(Toast, Children)
    ensures hasToastRelay && !hasTooltipRelay ==> e == Wrapped(Tooltip, Children)
    ensures hasToastRelay && hasTooltipRelay && !hasDialogRelay ==> e == Wrapped(FullscreenDialog, Children)
  {
    var element := Children;
    var element1 := if !hasDialogRelay then Wrapped(FullscreenDialog, Children) else element;
    var element2 := if !hasTooltipRelay then Wrapped(Tooltip, Children) else element1;
    if !hasToastRelay then Wrapped(Toast, Children) else element2
  }

  /** With no relay provided, only the toast is mounted: tooltip and dialog never are. */
  lemma AsWrittenDropsTooltipAndDialog()
    ensures Overlays(RootOverlays(false, false, false)) == [Toast]
  {
  }

  /**
   * The nesting the wrapper's documentation describes: each missing overlay wraps the
   * element built so far, so toast encloses tooltip encloses dialog encloses the children.
   */
  function NestedRootOverlays(hasToastRelay: bool, hasTooltipRelay: bool, hasDialogRelay: bool): (e: Element)
    ensures Depth(e) == (if hasToastRelay then 0 else 1) + (if hasTooltipRelay then 0 else 1)
                        + (if hasDialogRelay then 0 else 1)
  {
    var element := Children;
    var element1 := if !hasDialogRelay then Wrapped(FullscreenDialog, element) else element;
    var element2 := if !hasTooltipRelay then Wrapped(Tooltip, element1) else element1;
    if !hasToastRelay then Wrapped(Toast, element2) else element2
  }

  /** Position of an overlay in the paint order, outermost first. */
  function Rank(o: Overlay): nat {
    match o
    case Toast => 0
    case Tooltip => 1
    case FullscreenDialog => 2
  }

  /** The nested wrapper mounts exactly the missing overlays, each once, in the fixed order. */
  lemma NestedMountsEveryMissingOverlayInOrder(hasToastRelay: bool, hasTooltipRelay: bool, hasDialogRelay: bool)
    ensures var os := Overlays(NestedRootOverlays(hasToastRelay, hasTooltipRelay, hasDialogRelay));
            (Toast in os <==> !hasToastRelay)
            && (Tooltip in os <==> !hasTooltipRelay)
            && (FullscreenDialog in os <==> !hasDialogRelay)
            && (forall i, j :: 0 <= i < j < |os| ==> Rank(os[i]) < Rank(os[j]))
  {
  }
}
