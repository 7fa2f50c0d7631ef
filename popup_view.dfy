/**
 * The floating image of the dragged row.  It is placed in the coordinates
 * of the floating window: where the row was when the drag began, moved by
 * how far the pointer has travelled since, and lifted a little so that the
 * user sees the row has been picked up.  Adding the image to and removing
 * it from the window manager is modelled by the `attached` flag.
 */
module Popup {

  /** How far the image is lifted above the pointer-following position. */
  const YGap := 20

  datatype Point = Point(x: int, y: int)

  /** Where the image goes when the row started at `item`, the drag started
      with the pointer at `base` and the pointer is now at `pointer`. */
  function Placement(item: Point, base: Point, pointer: Point): (at: Point)
    ensures PointerFor(item, base, at) == pointer
    ensures pointer == base ==> at == Point(item.x, item.y - YGap)
  {
    Point(item.x + pointer.x - base.x, item.y + pointer.y - base.y - YGap)
  }

  /** The pointer position that puts the image at `at`; it undoes `Placement`. */
  function PointerFor(item: Point, base: Point, at: Point): Point
  {
    Point(at.x - item.x + base.x, at.y - item.y + base.y + YGap)
  }

  /** Before the pointer has moved, the image covers the row, lifted by the gap. */
  lemma PlacementAtStart(item: Point, base: Point)
    ensures Placement(item, base, base) == Point(item.x, item.y - YGap)
  {
  }

  /** The image moves exactly as far as the pointer does. */
  lemma PlacementFollowsPointer(item: Point, base: Point, p: Point, q: Point)
    ensures Placement(item, base, q).x - Placement(item, base, p).x == q.x - p.x
    ensures Placement(item, base, q).y - Placement(item, base, p).y == q.y - p.y
  {
  }

  /** The image's position determines the pointer's, and back. */
  lemma PlacementRoundTrip(item: Point, base: Point, p: Point, at: Point)
    ensures PointerFor(item, base, Placement(item, base, p)) == p
    ensures Placement(item, base, PointerFor(item, base, at)) == at
  {
  }

  class PopupView {
    var dragging: bool
    var baseX: int
    var baseY: int
    const itemLocation: array<int>
    /** The window layout's x and y. */
    var layoutX: int
    var layoutY: int
    /** Whether the image is currently added to the window manager. */
    var attached: bool

    ghost predicate Valid()
      reads this
    {
      itemLocation.Length == 2 && attached == dragging
    }

    /** Where the image goes for the pointer at (x, y) in the current drag. */
    function PlacementFor(x: int, y: int): Point
      requires Valid()
      reads this, itemLocation
    {
      Placement(Point(itemLocation[0], itemLocation[1]), Point(baseX, baseY), Point(x, y))
    }

    constructor ()
      ensures Valid() && fresh(itemLocation)
      ensures !dragging
    {
      itemLocation := new int[2];
      dragging, attached := false, false;
    }

    /** Shows the image of the row found at window position (itemX, itemY),
        for a drag whose pointer starts at (x, y).  A drag still open is closed
        first, so the image is never added twice. */
    method StartDrag(x: int, y: int, itemX: int, itemY: int)
      requires Valid()
      modifies this, itemLocation
      ensures Valid() && dragging && attached
      ensures baseX == x && baseY == y
      ensures itemLocation[..] == [itemX, itemY]
      ensures Point(layoutX, layoutY) == Point(itemX, itemY - YGap)
    {
      if dragging {
        StopDrag();
      }
      baseX := x;
      baseY := y;
      itemLocation[0], itemLocation[1] := itemX, itemY;
      UpdateLayoutParams(x, y);
      PlacementAtStart(Point(itemX, itemY), Point(x, y));
      AddView();
      dragging := true;
    }

    /** Follows the pointer to (x, y); does nothing unless a drag is open. */
    method DoDrag(x: int, y: int)
      requires Valid()
      modifies this`layoutX, this`layoutY
      ensures Valid()
      ensures !dragging ==> layoutX == old(layoutX) && layoutY == old(layoutY)
      ensures dragging ==> Point(layoutX, layoutY) == PlacementFor(x, y)
    {
      if !dragging {
        return;
      }
      UpdateLayoutParams(x, y);
    }

    /** Removes the image; does nothing unless a drag is open. */
    method StopDrag()
      requires Valid()
      modifies this`dragging, this`attached
      ensures Valid() && !dragging && !attached
    {
      if !dragging {
        return;
      }
      RemoveView();
      dragging := false;
    }

    method UpdateLayoutParams(x: int, y: int)
      requires Valid()
      modifies this`layoutX, this`layoutY
      ensures Point(layoutX, layoutY) == PlacementFor(x, y)
    {
      layoutX := itemLocation[0] + x - baseX;
      layoutY := itemLocation[1] + y - baseY - YGap;
    }

    /** The window manager refuses a view that it already shows. */
    method AddView()
      requires !attached
      modifies this`attached
      ensures attached
    {
      attached := true;
    }

    method RemoveView()
      requires attached
      modifies this`attached
      ensures !attached
    {
      attached := false;
    }
  }

  /** However the pointer wandered before, the image ends up where the last
      position puts it. */
  method MovesForgetHistory(p: PopupView, x1: int, y1: int, x2: int, y2: int)
    requires p.Valid() && p.dragging
    modifies p`layoutX, p`layoutY
    ensures Point(p.layoutX, p.layoutY) == p.PlacementFor(x2, y2)
  {
    p.DoDrag(x1, y1);
    p.DoDrag(x2, y2);
  }
}
