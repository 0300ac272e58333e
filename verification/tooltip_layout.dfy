/**
 * The tooltip's geometry: measuring an element against the page and placing the
 * tooltip body, its arrow and its outer container next to an anchor element.
 * Every DOM reading (bounding rectangles, scroll offsets, window and body sizes) is an input.
 */
module TooltipLayout {
  import opened Wrappers

  /** Half the arrow's width; the arrow is shifted by it to sit on the anchor's centre. */
  const ArrowSizePixels: real := 8.0
  /** The widest the tooltip body is allowed to be. */
  const MaxWidth: real := 350.0
  /** Gap kept between a clamped body and the viewport edge. */
  const SideMargin: real := 8.0
  /** Fixed visual offset of the arrow subtracted when centring the body on the anchor. */
  const CentringOffset: real := 15.0
  /** Vertical gap between the anchor and the tooltip. */
  const VerticalGap: real := 5.0

  /** Identity of a DOM element a tooltip can be anchored to. */
  type ElementId = nat

  /** What `getBoundingClientRect()` reports, in viewport coordinates. */
  datatype Rect = Rect(top: real, left: real, width: real, height: real)

  /** The window and document readings the layout uses. */
  datatype Page = Page(
    innerWidth: real, innerHeight: real,            // window.innerWidth / innerHeight
    pageXOffset: real, pageYOffset: real,           // window.pageXOffset / pageYOffset
    docScrollLeft: real, docScrollTop: real,        // document.documentElement.scrollLeft / scrollTop
    bodyClientWidth: real, bodyClientHeight: real)  // document.body.clientWidth / clientHeight

  /** Document-relative position of an element and its distances to the body's far edges. */
  datatype LayoutInfo = LayoutInfo(top: real, right: real, bottom: real, left: real, width: real, height: real)

  /** Style of the container holding arrow and body; unset keys are `None`. */
  datatype OuterStyle = OuterStyle(left: Option<real>, right: Option<real>, top: Option<real>,
                                   bottom: Option<real>, flexDirection: Option<string>)
  /** Style of the tooltip body. */
  datatype BodyStyle = BodyStyle(marginLeft: Option<real>, marginRight: Option<real>)
  /** Style of the arrow. */
  datatype ArrowStyle = ArrowStyle(left: Option<real>, right: Option<real>)

  /** The four pieces of layout state a layout pass sets together. */
  datatype Layout = Layout(outer: OuterStyle, body: BodyStyle, arrow: ArrowStyle, arrowClass: string)

  /** The layout state before any pass: three empty style objects and no arrow class. */
  const EmptyLayout := Layout(OuterStyle(None, None, None, None, None), BodyStyle(None, None),
                              ArrowStyle(None, None), "")

  /** Outcome of one layout pass. */
  datatype PassOutcome =
    | NoBody                // the tooltip body is not rendered: nothing is set
    | AnchorFault           // the anchor is missing: measuring it throws, nothing is set
    | Placed(layout: Layout)

  function Min(a: real, b: real): real {
    if a <= b then a else b
  }

  /** `window.pageXOffset || document.documentElement.scrollLeft`: a zero offset is falsy. */
  function Scroll(windowOffset: real, documentScroll: real): (r: real)
    ensures windowOffset != 0.0 ==> r == windowOffset
    ensures windowOffset == 0.0 ==> r == documentScroll
  {
    if windowOffset != 0.0 then windowOffset else documentScroll
  }

  /**
   * Measures an element: top/left are document-relative (scroll added), right/bottom are
   * the distances from its far edges to the body's client width and height.
   */
  function ElementLayoutInfo(rect: Rect, page: Page): (info: LayoutInfo)
    ensures info.left == rect.left + Scroll(page.pageXOffset, page.docScrollLeft)
    ensures info.top == rect.top + Scroll(page.pageYOffset, page.docScrollTop)
    ensures info.width == rect.width && info.height == rect.height
    ensures info.left + info.width + info.right == page.bodyClientWidth
    ensures info.top + info.height + info.bottom == page.bodyClientHeight
  {
    var scrollLeft := Scroll(page.pageXOffset, page.docScrollLeft);
    var scrollTop := Scroll(page.pageYOffset, page.docScrollTop);
    LayoutInfo(
      rect.top + scrollTop,
      page.bodyClientWidth - (rect.left + scrollLeft + rect.width),
      page.bodyClientHeight - (rect.top + scrollTop + rect.height),
      rect.left + scrollLeft,
      rect.width,
      rect.height)
  }

  /** The anchor's horizontal centre lies in the left half of the screen. */
  predicate IsLeft(anchor: LayoutInfo, screenWidth: real) {
    anchor.left + anchor.width / 2.0 < screenWidth / 2.0
  }

  /** The string override wins; otherwise the anchor's vertical centre decides. */
  predicate IsTop(anchor: LayoutInfo, overrideSide: Option<string>, screenHeight: real) {
    if overrideSide == Some("top") then true
    else if overrideSide == Some("bottom") then false
    else anchor.top + anchor.height / 2.0 < screenHeight / 2.0
  }

  /** Distance from the anchor to the screen edge on the chosen side. */
  function NearDistance(anchor: LayoutInfo, isLeft: bool): real {
    if isLeft then anchor.left else anchor.right
  }

  /** `(margin ? margin : 0) + width / 2 - 15`: an unset or zero margin counts as zero. */
  function ApplyOffset(margin: Option<real>, anchorWidth: real): real {
    (if margin.Some? && margin.value != 0.0 then margin.value else 0.0) + anchorWidth / 2.0 - CentringOffset
  }

  /** Body margins on the chosen side: clamped when the body would overflow, then centred. */
  function BodyMargins(anchor: LayoutInfo, tooltip: LayoutInfo, isLeft: bool, screenWidth: real): BodyStyle {
    var closeSideMargin := Min(NearDistance(anchor, isLeft), tooltip.width / 2.0);
    if isLeft then
      var clamped := if anchor.left + MaxWidth > screenWidth
                     then BodyStyle(Some(-closeSideMargin + SideMargin), Some(SideMargin))
                     else BodyStyle(None, None);
      clamped.(marginLeft := Some(ApplyOffset(clamped.marginLeft, anchor.width)))
    else
      var clamped := if anchor.right + MaxWidth > screenWidth
                     then BodyStyle(Some(SideMargin), Some(-closeSideMargin + SideMargin))
                     else BodyStyle(None, None);
      clamped.(marginRight := Some(ApplyOffset(clamped.marginRight, anchor.width)))
  }

  /** True when the outer container is anchored from the top edge. */
  predicate PlacedAtTop(l: Layout) {
    l.outer.top.Some?
  }

  /**
   * The placement engine: side selection, arrow offset, overflow clamping and vertical
   * placement of the tooltip for an anchor `anchor` and a tooltip body `tooltip`.
   */
  function Placement(anchor: LayoutInfo, tooltip: LayoutInfo, overrideSide: Option<string>,
                     screenWidth: real, screenHeight: real): (l: Layout)
    // horizontal side: the outer container sets exactly one of left / right
    ensures l.outer.left.Some? <==> IsLeft(anchor, screenWidth)
    ensures l.outer.left.Some? != l.outer.right.Some?
    ensures IsLeft(anchor, screenWidth) ==> l.outer.left == Some(anchor.left)
    ensures !IsLeft(anchor, screenWidth) ==> l.outer.right == Some(anchor.right)
    // the arrow sits on the chosen side, its centre on the anchor's centre
    ensures IsLeft(anchor, screenWidth) ==> l.arrow.right.None? && l.arrow.left.Some?
    ensures !IsLeft(anchor, screenWidth) ==> l.arrow.left.None? && l.arrow.right.Some?
    ensures l.arrow.left.Some? ==> l.arrow.left.value + ArrowSizePixels == anchor.width / 2.0
    ensures l.arrow.right.Some? ==> l.arrow.right.value + ArrowSizePixels == anchor.width / 2.0
    // body margins: near side clamped on overflow and centred; far side 8 only on overflow
    ensures var isLeft := IsLeft(anchor, screenWidth);
            var near := NearDistance(anchor, isLeft);
            var overflow := near + MaxWidth > screenWidth;
            var nearMargin := (if overflow then -Min(near, tooltip.width / 2.0) + SideMargin else 0.0)
                              + anchor.width / 2.0 - CentringOffset;
            var farMargin := if overflow then Some(SideMargin) else None;
            l.body == (if isLeft then BodyStyle(Some(nearMargin), farMargin)
                       else BodyStyle(farMargin, Some(nearMargin)))
    // vertical side: the override decides, else the anchor's vertical centre
    ensures overrideSide == Some("top") ==> PlacedAtTop(l)
    ensures overrideSide == Some("bottom") ==> !PlacedAtTop(l)
    ensures overrideSide != Some("top") && overrideSide != Some("bottom") ==>
              (PlacedAtTop(l) <==> anchor.top + anchor.height / 2.0 < screenHeight / 2.0)
    // vertical placement with a 5px gap; bottom-anchored containers reverse their stacking
    ensures PlacedAtTop(l) ==>
              l.outer.top == Some(anchor.top + anchor.height + VerticalGap)
              && l.outer.bottom.None? && l.outer.flexDirection.None?
              && l.arrowClass == "TooltipArrowTop"
    ensures !PlacedAtTop(l) ==>
              l.outer.bottom == Some(anchor.bottom + anchor.height + VerticalGap)
              && l.outer.flexDirection == Some("column-reverse")
              && l.arrowClass == "TooltipArrowBottom"
  {
    var isLeft := IsLeft(anchor, screenWidth);
    var isTop := IsTop(anchor, overrideSide, screenHeight);
    var arrowPosition := anchor.width / 2.0 - ArrowSizePixels;
    var elementPositionWithMargin := (if isTop then anchor.top else anchor.bottom) + anchor.height + VerticalGap;
    var outer := OuterStyle(
      if isLeft then Some(anchor.left) else None,
      if isLeft then None else Some(anchor.right),
      if isTop then Some(elementPositionWithMargin) else None,
      if isTop then None else Some(elementPositionWithMargin),
      if isTop then None else Some("column-reverse"));
    var arrow := if isLeft then ArrowStyle(Some(arrowPosition), None) else ArrowStyle(None, Some(arrowPosition));
    Layout(outer, BodyMargins(anchor, tooltip, isLeft, screenWidth), arrow,
           if isTop then "TooltipArrowTop" else "TooltipArrowBottom")
  }

  /**
   * One layout pass for the anchor `anchor` (measured as `anchorRect`) with the tooltip body
   * measured as `bodyRect` when it is rendered. The body is checked first: without it the
   * pass returns before measuring the anchor.
   */
  function LayoutPass(anchor: Option<ElementId>, overrideSide: Option<string>, page: Page,
                      anchorRect: Rect, bodyRect: Option<Rect>): (o: PassOutcome)
    ensures o.NoBody? <==> bodyRect.None?
    ensures o.AnchorFault? <==> bodyRect.Some? && anchor.None?
    ensures o.Placed? ==>
              o.layout == Placement(ElementLayoutInfo(anchorRect, page), ElementLayoutInfo(bodyRect.value, page),
                                    overrideSide, page.innerWidth, page.innerHeight)
  {
    match bodyRect
    case None => NoBody
    case Some(body) =>
      if anchor.None? then AnchorFault
      else Placed(Placement(ElementLayoutInfo(anchorRect, page), ElementLayoutInfo(body, page),
                            overrideSide, page.innerWidth, page.innerHeight))
  }

  /** An anchor 100px wide at left 700 on an 800px screen puts the tooltip on the right side. */
  lemma RightHalfAnchorPlacesRight(tooltip: LayoutInfo, overrideSide: Option<string>, screenHeight: real)
    ensures var anchor := LayoutInfo(0.0, 0.0, 0.0, 700.0, 100.0, 20.0);
            var l := Placement(anchor, tooltip, overrideSide, 800.0, screenHeight);
            l.outer.right == Some(0.0) && l.outer.left.None?
  {
  }
}
