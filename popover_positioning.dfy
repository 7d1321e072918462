/**
 * Placement of the floating detail panel relative to a node's on-screen
 * rectangle.  The browser's viewport width and height are parameters.
 *
 * Horizontally the panel is centred on the node and its centre is clamped
 * into [padding + half, viewportWidth - padding - half]; the clamp is
 * `min(max(centre, lower), upper)`, so when the bounds cross the upper one
 * wins.  Vertically the panel goes below the node when it fits, otherwise
 * above it, never above the padding.
 */
module PopoverPositioning {
  import opened GraphModels

  /** The fields of a DOMRect the placement reads, as the browser reports them. */
  datatype DomRect = DomRect(left: real, top: real, width: real, height: real, bottom: real)

  function Max(a: real, b: real): (m: real)
    ensures m >= a && m >= b && (m == a || m == b)
  {
    if a >= b then a else b
  }

  function Min(a: real, b: real): (m: real)
    ensures m <= a && m <= b && (m == a || m == b)
  {
    if a <= b then a else b
  }

  /** The configured width of a panel of the given variant. */
  function BaseWidth(variant: PopoverVariant, metrics: PopoverMetrics): (w: real)
    ensures variant == PerimeterVariant ==> w == metrics.popoverPerimeterWidth
    ensures variant == DetailsVariant ==> w == metrics.popoverDetailsWidth
  {
    if variant == PerimeterVariant then metrics.popoverPerimeterWidth else metrics.popoverDetailsWidth
  }

  /**
   * The width actually used: the configured width, capped at the viewport
   * minus both paddings, never negative.
   */
  function EffectiveWidth(variant: PopoverVariant, metrics: PopoverMetrics, viewportWidth: real): (w: real)
    ensures 0.0 <= w
    ensures w <= Max(0.0, BaseWidth(variant, metrics))
    ensures viewportWidth - 2.0 * metrics.popoverViewportPadding >= 0.0 ==>
              w <= viewportWidth - 2.0 * metrics.popoverViewportPadding
    ensures viewportWidth - 2.0 * metrics.popoverViewportPadding < 0.0 ==> w == 0.0
    ensures 0.0 <= BaseWidth(variant, metrics) <= viewportWidth - 2.0 * metrics.popoverViewportPadding ==>
              w == BaseWidth(variant, metrics)
    ensures 0.0 <= viewportWidth - 2.0 * metrics.popoverViewportPadding < BaseWidth(variant, metrics) ==>
              w == viewportWidth - 2.0 * metrics.popoverViewportPadding
    ensures BaseWidth(variant, metrics) < 0.0 ==> w == 0.0
  {
    Max(0.0, Min(BaseWidth(variant, metrics), viewportWidth - metrics.popoverViewportPadding * 2.0))
  }

  /** The horizontal centre of a rectangle. */
  function CenterX(rect: DomRect): real {
    rect.left + rect.width / 2.0
  }

  /** The smallest centre that keeps the panel inside the left padding. */
  function MinX(variant: PopoverVariant, metrics: PopoverMetrics, viewportWidth: real): real {
    metrics.popoverViewportPadding + EffectiveWidth(variant, metrics, viewportWidth) / 2.0
  }

  /** The largest centre that keeps the panel inside the right padding. */
  function MaxX(variant: PopoverVariant, metrics: PopoverMetrics, viewportWidth: real): real {
    viewportWidth - metrics.popoverViewportPadding - EffectiveWidth(variant, metrics, viewportWidth) / 2.0
  }

  /** The horizontal centre of the panel. */
  function CalculateX(rect: DomRect, variant: PopoverVariant, metrics: PopoverMetrics, viewportWidth: real): (x: real)
    ensures x <= MaxX(variant, metrics, viewportWidth)
    ensures viewportWidth >= 2.0 * metrics.popoverViewportPadding ==>
              MinX(variant, metrics, viewportWidth) <= x <= MaxX(variant, metrics, viewportWidth)
    ensures viewportWidth < 2.0 * metrics.popoverViewportPadding ==>
              x == viewportWidth - metrics.popoverViewportPadding
    ensures MinX(variant, metrics, viewportWidth) <= CenterX(rect) <= MaxX(variant, metrics, viewportWidth) ==>
              x == CenterX(rect)
    ensures CenterX(rect) < MinX(variant, metrics, viewportWidth) <= MaxX(variant, metrics, viewportWidth) ==>
              x == MinX(variant, metrics, viewportWidth)
    ensures CenterX(rect) > MaxX(variant, metrics, viewportWidth) ==> x == MaxX(variant, metrics, viewportWidth)
  {
    Min(Max(CenterX(rect), MinX(variant, metrics, viewportWidth)), MaxX(variant, metrics, viewportWidth))
  }

  /** The top of the panel: below the node when it fits, otherwise above it. */
  function CalculateY(rect: DomRect, metrics: PopoverMetrics, viewportHeight: real): (y: real)
    ensures rect.bottom + metrics.popoverOffsetY + metrics.popoverMinHeight
              <= viewportHeight - metrics.popoverViewportPadding ==>
            y == rect.bottom + metrics.popoverOffsetY
    ensures rect.bottom + metrics.popoverOffsetY + metrics.popoverMinHeight
              > viewportHeight - metrics.popoverViewportPadding ==>
            && y >= metrics.popoverViewportPadding
            && y >= rect.top - metrics.popoverOffsetY - metrics.popoverMinHeight
            && (y == metrics.popoverViewportPadding ||
                y == rect.top - metrics.popoverOffsetY - metrics.popoverMinHeight)
  {
    var padding := metrics.popoverViewportPadding;
    var belowY := rect.bottom + metrics.popoverOffsetY;
    var aboveY := rect.top - metrics.popoverOffsetY - metrics.popoverMinHeight;
    if belowY + metrics.popoverMinHeight <= viewportHeight - padding then belowY
    else Max(padding, aboveY)
  }

  /** The panel's position: the horizontal centre and the top. */
  function CalculatePosition(rect: DomRect, variant: PopoverVariant, metrics: PopoverMetrics,
                             viewportWidth: real, viewportHeight: real): (p: PopoverPosition)
    ensures p.x == CalculateX(rect, variant, metrics, viewportWidth)
    ensures p.y == CalculateY(rect, metrics, viewportHeight)
  {
    NodePosition(CalculateX(rect, variant, metrics, viewportWidth), CalculateY(rect, metrics, viewportHeight))
  }

  /** The vertical placement does not depend on the variant. */
  lemma PositionYIndependentOfVariant(rect: DomRect, v1: PopoverVariant, v2: PopoverVariant,
                                      metrics: PopoverMetrics, viewportWidth: real, viewportHeight: real)
    ensures CalculatePosition(rect, v1, metrics, viewportWidth, viewportHeight).y
         == CalculatePosition(rect, v2, metrics, viewportWidth, viewportHeight).y
  {
  }

  /**
   * A perimeter panel 460 wide in an 800-wide viewport with padding 16, for a
   * node centred at 0, is pushed right to 16 + 230.
   */
  lemma HorizontalClampExample(details: real, minHeight: real, offsetY: real)
    ensures CalculateX(DomRect(0.0, 0.0, 0.0, 0.0, 0.0), PerimeterVariant,
                       PopoverMetrics(460.0, details, minHeight, offsetY, 16.0), 800.0) == 246.0
  {
    var metrics := PopoverMetrics(460.0, details, minHeight, offsetY, 16.0);
    assert EffectiveWidth(PerimeterVariant, metrics, 800.0) == 460.0;
    assert MinX(PerimeterVariant, metrics, 800.0) == 246.0;
    assert MaxX(PerimeterVariant, metrics, 800.0) == 554.0;
  }

  /**
   * A node whose bottom is at 750 in a 760-high viewport cannot take a 200-high
   * panel below it, so the panel goes above, at least at the padding.
   */
  lemma VerticalFallbackExample(top: real)
    ensures CalculateY(DomRect(0.0, top, 0.0, 750.0 - top, 750.0),
                       PopoverMetrics(460.0, 320.0, 200.0, 10.0, 16.0), 760.0)
         == Max(16.0, top - 210.0)
  {
  }
}
