/**
 * The auto-scroll policy run on every move of a drag: a speed chosen from
 * how close the pointer is to the top or bottom edge, and a re-anchoring of
 * the row at the centre of the list by that speed.  The list's geometry is
 * the renderer's, and is given as a `ListLayout` value.
 */
module Scroll {
  import opened Options

  /** Time after the press during which no scrolling happens. */
  const GracePeriod := 500
  const FastSpeed := 25
  const SlowSpeed := 8
  /** What hit-testing answers for a point over no row. */
  const InvalidPosition := -1

  /** A row currently on screen: its top within the list, and its top-left
      corner in the coordinates of the floating window. */
  datatype Child = Child(top: int, windowX: int, windowY: int)

  /** What the renderer reports about the list at one moment: its size, the
      height of a divider, the position of the first visible row, the visible
      rows in order, and hit-testing of a point (a position, or
      `InvalidPosition`). */
  datatype ListLayout = ListLayout(
    width: int, height: int, dividerHeight: int,
    firstVisible: int, children: seq<Child>,
    hit: (int, int) -> int)

  /** The width, the height and the first visible position are not negative,
      and hit-testing finds either nothing or one of the rows on screen.  The
      divider height is not constrained. */
  ghost predicate ValidLayout(layout: ListLayout)
  {
    && layout.width >= 0
    && layout.height >= 0
    && layout.firstVisible >= 0
    && forall x: int, y: int :: layout.hit(x, y) == InvalidPosition
         || layout.firstVisible <= layout.hit(x, y) < layout.firstVisible + |layout.children|
  }

  /** The row on screen holding `position`, or None when that position is
      scrolled out of view. */
  function ChildByIndex(layout: ListLayout, position: int): (c: Option<Child>)
    ensures c.Some? <==> layout.firstVisible <= position < layout.firstVisible + |layout.children|
    ensures c.Some? ==> c.value == layout.children[position - layout.firstVisible]
  {
    var i := position - layout.firstVisible;
    if 0 <= i < |layout.children| then Some(layout.children[i]) else None
  }

  /** On a well-formed layout every row that hit-testing finds is on screen,
      so the row looked up for a hit is never missing. */
  lemma HitHasRow(layout: ListLayout, x: int, y: int)
    requires ValidLayout(layout)
    ensures layout.hit(x, y) == InvalidPosition || ChildByIndex(layout, layout.hit(x, y)).Some?
  {
  }

  /** The scroll speed for pointer height `y` in a list `height` high,
      `elapsed` time units after the press; None is the dead zone, where
      nothing at all is done.  Negative speeds scroll toward the top. */
  function ScrollSpeed(y: int, height: int, elapsed: int): (r: Option<int>)
    requires height >= 0
    ensures elapsed < GracePeriod ==> r == Some(0)
    ensures r.Some? ==> -FastSpeed <= r.value <= FastSpeed
    ensures r.Some? && r.value < 0 ==> y < height / 4
    ensures r.Some? && r.value > 0 ==> y > height - height / 4
  {
    var fastBound := height / 9;
    var slowBound := height / 4;
    if elapsed < GracePeriod then Some(0)
    else if y < slowBound then Some(if y < fastBound then -FastSpeed else -SlowSpeed)
    else if y > height - slowBound then Some(if y > height - fastBound then FastSpeed else SlowSpeed)
    else None
  }

  /** The speed as a number, the dead zone counting as zero. */
  function Rate(r: Option<int>): int
  {
    if r.Some? then r.value else 0
  }

  /** During the grace period the speed is zero wherever the pointer is. */
  lemma GraceMeansStill(y: int, height: int, elapsed: int)
    requires height >= 0 && elapsed < GracePeriod
    ensures ScrollSpeed(y, height, elapsed) == Some(0)
  {
  }

  /** After the grace period, the five bands from top to bottom: fast up,
      slow up, dead zone, slow down, fast down. */
  lemma SpeedTiers(y: int, height: int, elapsed: int)
    requires height >= 0 && elapsed >= GracePeriod
    ensures ScrollSpeed(y, height, elapsed) == Some(-FastSpeed) <==> y < height / 9
    ensures ScrollSpeed(y, height, elapsed) == Some(-SlowSpeed) <==> height / 9 <= y < height / 4
    ensures ScrollSpeed(y, height, elapsed).None? <==> height / 4 <= y <= height - height / 4
    ensures ScrollSpeed(y, height, elapsed) == Some(SlowSpeed) <==> height - height / 4 < y <= height - height / 9
    ensures ScrollSpeed(y, height, elapsed) == Some(FastSpeed) <==> height - height / 9 < y
  {
    BoundsOrdered(height);
  }

  /** The four band edges come in order down the list. */
  lemma BoundsOrdered(height: int)
    requires height >= 0
    ensures height / 9 <= height / 4 <= height - height / 4 <= height - height / 9
  {
  }

  /** The lower the pointer, the further down (or the less far up) the list
      scrolls. */
  lemma SpeedMonotone(y1: int, y2: int, height: int, elapsed: int)
    requires height >= 0 && y1 <= y2
    ensures Rate(ScrollSpeed(y1, height, elapsed)) <= Rate(ScrollSpeed(y2, height, elapsed))
  {
    BoundsOrdered(height);
  }

  /** The middle of the list is always in the dead zone. */
  lemma CentreIsStill(height: int, elapsed: int)
    requires height >= 0 && elapsed >= GracePeriod
    ensures ScrollSpeed(height / 2, height, elapsed).None?
  {
  }

  /** The tiers for a list 900 high: the bounds are 100 and 225. */
  lemma SpeedExamples()
    ensures ScrollSpeed(50, 900, GracePeriod) == Some(-FastSpeed)
    ensures ScrollSpeed(150, 900, GracePeriod) == Some(-SlowSpeed)
    ensures ScrollSpeed(450, 900, GracePeriod) == None
    ensures ScrollSpeed(700, 900, GracePeriod) == Some(SlowSpeed)
    ensures ScrollSpeed(850, 900, GracePeriod) == Some(FastSpeed)
    ensures ScrollSpeed(850, 900, GracePeriod - 1) == Some(0)
  {
  }

  /** The position of the row at the centre of the list; when the centre is
      on a divider, the point one divider height lower is tried instead. */
  function AnchorPosition(layout: ListLayout): (p: int)
    ensures ValidLayout(layout) ==> p == InvalidPosition || ChildByIndex(layout, p).Some?
  {
    var halfWidth := layout.width / 2;
    var halfHeight := layout.height / 2;
    var middle := layout.hit(halfWidth, halfHeight);
    if middle == InvalidPosition then layout.hit(halfWidth, halfHeight + layout.dividerHeight)
    else middle
  }

  /** The list's `setSelectionFromTop(position, top)` call. */
  datatype ScrollRequest = SetSelectionFromTop(position: int, top: int)

  /** The scroll, if any, for a move with pointer height `y` at `elapsed`
      time units after the press: the anchor row is moved to its own top
      less the speed. */
  function ScrollFor(y: int, elapsed: int, layout: ListLayout): (r: Option<ScrollRequest>)
    requires ValidLayout(layout)
    ensures r.Some? <==> ScrollSpeed(y, layout.height, elapsed).Some? && AnchorPosition(layout) != InvalidPosition
    ensures r.Some? ==>
      var anchor := AnchorPosition(layout);
      && r.value.position == anchor
      && layout.firstVisible <= anchor < layout.firstVisible + |layout.children|
      && r.value.top == layout.children[anchor - layout.firstVisible].top - ScrollSpeed(y, layout.height, elapsed).value
  {
    match ScrollSpeed(y, layout.height, elapsed)
    case None => None
    case Some(speed) =>
      var middle := AnchorPosition(layout);
      match ChildByIndex(layout, middle)
      case None => None
      case Some(view) => Some(SetSelectionFromTop(middle, view.top - speed))
  }

  /** A centre that misses twice means no scroll. */
  lemma AnchorMissMeansNoScroll(y: int, elapsed: int, layout: ListLayout)
    requires ValidLayout(layout)
    requires layout.hit(layout.width / 2, layout.height / 2) == InvalidPosition
    requires layout.hit(layout.width / 2, layout.height / 2 + layout.dividerHeight) == InvalidPosition
    ensures ScrollFor(y, elapsed, layout) == None
  {
  }

  /** During the grace period the list is re-anchored where it already is,
      and it always is when the centre hits a row. */
  lemma GraceKeepsPlace(y: int, elapsed: int, layout: ListLayout)
    requires ValidLayout(layout) && elapsed < GracePeriod
    ensures ScrollFor(y, elapsed, layout).Some? ==>
      ScrollFor(y, elapsed, layout).value.top == ChildByIndex(layout, AnchorPosition(layout)).value.top
    ensures AnchorPosition(layout) != InvalidPosition ==> ScrollFor(y, elapsed, layout).Some?
  {
  }
}
