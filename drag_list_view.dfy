/**
 * The drag controller: the list view that turns touch events into drags.
 * A press is remembered; a long press then picks up the row under that
 * press, moves carry it (reordering the adapter and moving the floating
 * image) and may auto-scroll, and a release, cancel or touch outside puts it
 * down.  Each handler answers whether it consumed the event; an unconsumed
 * event goes on to the list's default handling.
 */
module DragList {
  import opened Options
  import opened Reorder
  import opened Adapter
  import opened Scroll
  import opened Popup

  datatype Action = ActionDown | ActionMove | ActionUp | ActionCancel | ActionOutside | ActionOther(code: int)

  /** A touch event, with its coordinates already truncated to integers. */
  datatype MotionEvent = MotionEvent(action: Action, x: int, y: int, eventTime: int, downTime: int)

  class DragListView<T> {
    const adapter: DragListAdapter<T>
    const popupView: PopupView
    var downEvent: Option<MotionEvent>
    var dragging: bool

    /** The order the list had when it was attached, and the order and the
        position of the carried row when the current drag began. */
    ghost const initialOrder: seq<T>
    ghost var sessionStart: seq<T>
    ghost var sessionOrigin: int

    /** The image is shown exactly while some row is hidden, the hidden row is
        a real one, an open drag has both, and the rows of an open drag are
        those of a single move from where it began to where it is now. */
    ghost predicate Valid()
      reads this, adapter, adapter.items, popupView, popupView.itemLocation
    {
      && popupView.Valid()
      && (adapter.items as object) != (popupView.itemLocation as object)
      && (popupView.dragging <==> adapter.currentPosition != NoDrag)
      && (adapter.currentPosition == NoDrag || 0 <= adapter.currentPosition < adapter.items.Length)
      && (dragging ==> popupView.dragging)
      && multiset(adapter.items[..]) == multiset(initialOrder)
      && (dragging ==>
            && 0 <= sessionOrigin < |sessionStart| == adapter.items.Length
            && adapter.items[..] == Moved(sessionStart, sessionOrigin, adapter.currentPosition))
    }

    /** A layout describes this list: hit-testing lands on a visible row, and
        every visible row is one of the adapter's. */
    ghost predicate Fits(layout: ListLayout)
      reads this
    {
      ValidLayout(layout) && layout.firstVisible + |layout.children| <= adapter.items.Length
    }

    /** A list showing `adapter`, with no drag in progress. */
    constructor (adapter: DragListAdapter<T>)
      requires adapter.currentPosition == NoDrag
      ensures Valid() && fresh(popupView)
      ensures this.adapter == adapter && !dragging && downEvent == None
      ensures initialOrder == adapter.items[..]
    {
      this.adapter := adapter;
      popupView := new PopupView();
      downEvent := None;
      dragging := false;
      initialOrder := adapter.items[..];
    }

    /** The long-press handler: starts a drag at the remembered press. */
    method OnItemLongClick(layout: ListLayout) returns (consumed: bool)
      requires Valid() && Fits(layout) && downEvent.Some?
      modifies this, adapter, popupView, popupView.itemLocation
      ensures Valid()
      ensures downEvent == old(downEvent)
      ensures consumed == (layout.hit(downEvent.value.x, downEvent.value.y) >= 0)
      ensures dragging == consumed
      ensures !consumed ==> unchanged(adapter, popupView, popupView.itemLocation)
      ensures consumed ==>
        && adapter.currentPosition == layout.hit(downEvent.value.x, downEvent.value.y)
        && popupView.attached
        && Point(popupView.baseX, popupView.baseY) == Point(downEvent.value.x, downEvent.value.y)
    {
      consumed := StartDrag(downEvent.value, layout);
    }

    /** Dispatches a touch event.  `superResult` is what the list's default
        handler would answer; `delegated` says whether it is called.  A move
        may also ask the list to scroll. */
    method OnTouchEvent(event: MotionEvent, layout: ListLayout, superResult: bool)
      returns (result: bool, delegated: bool, scroll: Option<ScrollRequest>)
      requires Valid() && Fits(layout)
      modifies this, adapter, adapter.items, popupView
      ensures Valid()
      ensures downEvent == if event.action == ActionDown then Some(event) else old(downEvent)
      ensures result == if delegated then superResult else true
      ensures scroll.Some? ==> event.action == ActionMove && old(dragging)
      // A press is only remembered; any other event that is not part of a
      // drag changes nothing.
      ensures event.action == ActionDown ==>
        delegated && dragging == old(dragging) && unchanged(adapter, adapter.items, popupView)
      ensures event.action.ActionOther? ==> delegated && unchanged(this, adapter, adapter.items, popupView)
      ensures (event.action.ActionMove? || event.action.ActionUp? || event.action.ActionCancel?
               || event.action.ActionOutside?) ==> (delegated <==> !old(dragging))
      ensures (event.action.ActionMove? || event.action.ActionUp? || event.action.ActionCancel?
               || event.action.ActionOutside?) && !old(dragging) ==>
        !dragging && unchanged(adapter, adapter.items, popupView)
      // A move during a drag carries the row to the row under the pointer,
      // moves the image by the pointer's travel, and scrolls.
      ensures event.action == ActionMove && old(dragging) ==>
        var position := layout.hit(event.x, event.y);
        && dragging
        && adapter.items[..] == (if position == InvalidPosition then old(adapter.items[..])
                                 else Moved(old(adapter.items[..]), old(adapter.currentPosition), position))
        && adapter.currentPosition == (if position == InvalidPosition then old(adapter.currentPosition) else position)
        && adapter.items[..] == Moved(sessionStart, sessionOrigin, adapter.currentPosition)
        && popupView.attached
        && popupView.baseX == old(popupView.baseX) && popupView.baseY == old(popupView.baseY)
        && Point(popupView.layoutX, popupView.layoutY) == popupView.PlacementFor(event.x, event.y)
        && scroll == ScrollFor(event.y, event.eventTime - event.downTime, layout)
      // A release, cancel or touch outside puts the row down where it is.
      ensures (event.action.ActionUp? || event.action.ActionCancel? || event.action.ActionOutside?) ==>
        && !dragging
        && adapter.items[..] == old(adapter.items[..])
        && (old(dragging) ==> adapter.currentPosition == NoDrag && !popupView.attached)
    {
      var handled := false;
      scroll := None;
      match event.action {
        case ActionDown =>
          StoreMotionEvent(event);
        case ActionMove =>
          handled, scroll := DoDrag(event, layout);
        case ActionUp =>
          handled := StopDrag();
        case ActionCancel =>
          handled := StopDrag();
        case ActionOutside =>
          handled := StopDrag();
        case ActionOther(_) =>
      }
      delegated := !handled;
      result := if delegated then superResult else handled;
    }

    /** Remembers a press, for a long press that may follow. */
    method StoreMotionEvent(event: MotionEvent)
      modifies this`downEvent
      ensures downEvent == Some(event)
    {
      downEvent := Some(event);
    }

    /** Picks up the row under `event`.  Over no row nothing is picked up
        and the adapter and the image are left as they were. */
    method StartDrag(event: MotionEvent, layout: ListLayout) returns (ok: bool)
      requires Valid() && Fits(layout)
      modifies this, adapter, popupView, popupView.itemLocation
      ensures Valid()
      ensures ok <==> layout.hit(event.x, event.y) >= 0
      ensures dragging == ok
      ensures downEvent == old(downEvent)
      ensures !ok ==> unchanged(adapter, popupView, popupView.itemLocation)
      ensures ok ==> adapter.currentPosition == layout.hit(event.x, event.y)
      ensures ok ==> var row := ChildByIndex(layout, adapter.currentPosition).value;
        && popupView.itemLocation[..] == [row.windowX, row.windowY]
        && Point(popupView.baseX, popupView.baseY) == Point(event.x, event.y)
        && Point(popupView.layoutX, popupView.layoutY) == Point(row.windowX, row.windowY - YGap)
    {
      dragging := false;
      var x := event.x;
      var y := event.y;
      var position := EventToPosition(event, layout);
      if position < 0 {
        return false;
      }
      adapter.StartDrag(position);
      var row := ChildByIndex(layout, position).value;
      popupView.StartDrag(x, y, row.windowX, row.windowY);
      sessionStart := adapter.items[..];
      sessionOrigin := position;
      MovedSelf(sessionStart, position);
      dragging := true;
      return true;
    }

    /** Carries the picked-up row to the row under `event` when there is one,
        moves the image, and decides the auto-scroll.  Without an open drag
        nothing happens and the event is not consumed. */
    method DoDrag(event: MotionEvent, layout: ListLayout) returns (ok: bool, scroll: Option<ScrollRequest>)
      requires Valid() && Fits(layout)
      modifies adapter`currentPosition, adapter.items, popupView`layoutX, popupView`layoutY
      ensures Valid()
      ensures ok == old(dragging)
      ensures !ok ==> scroll == None && unchanged(adapter, adapter.items, popupView)
      ensures ok ==> var position := layout.hit(event.x, event.y);
        && adapter.items[..] == (if position == InvalidPosition then old(adapter.items[..])
                                 else Moved(old(adapter.items[..]), old(adapter.currentPosition), position))
        && adapter.currentPosition == (if position == InvalidPosition then old(adapter.currentPosition) else position)
        && Point(popupView.layoutX, popupView.layoutY) == popupView.PlacementFor(event.x, event.y)
        && scroll == ScrollFor(event.y, event.eventTime - event.downTime, layout)
      ensures ok ==> adapter.items[..] == Moved(sessionStart, sessionOrigin, adapter.currentPosition)
    {
      if !dragging {
        return false, None;
      }
      var x := event.x;
      var y := event.y;
      var position := layout.hit(x, y);
      if position != InvalidPosition {
        MovedCompose(sessionStart, sessionOrigin, adapter.currentPosition, position);
        adapter.DoDrag(position);
      }
      popupView.DoDrag(x, y);
      scroll := SetScroll(event, layout);
      return true, scroll;
    }

    /** Puts the carried row down: no row is hidden and the image is gone.
        Without an open drag nothing happens and the event is not consumed. */
    method StopDrag() returns (ok: bool)
      requires Valid()
      modifies this`dragging, adapter`currentPosition, popupView`dragging, popupView`attached
      ensures Valid()
      ensures ok == old(dragging)
      ensures !ok ==> unchanged(this, adapter, popupView)
      ensures ok ==> adapter.currentPosition == NoDrag && !popupView.attached && !dragging
    {
      if !dragging {
        return false;
      }
      adapter.StopDrag();
      popupView.StopDrag();
      dragging := false;
      return true;
    }

    /** The auto-scroll for a move, computed from the list's current layout.
        This is the source's if-chain, written out step by step with its early
        return; `ScrollSpeed` and `ScrollFor` state the same policy as
        functions, and the ensures ties the two together. */
    method SetScroll(event: MotionEvent, layout: ListLayout) returns (scroll: Option<ScrollRequest>)
      requires ValidLayout(layout)
      ensures scroll == ScrollFor(event.y, event.eventTime - event.downTime, layout)
    {
      var y := event.y;
      var height := layout.height;
      var halfHeight := height / 2;
      var halfWidth := layout.width / 2;
      var speed: int;
      var fastBound := height / 9;
      var slowBound := height / 4;
      if event.eventTime - event.downTime < GracePeriod {
        speed := 0;
      } else if y < slowBound {
        speed := if y < fastBound then -FastSpeed else -SlowSpeed;
      } else if y > height - slowBound {
        speed := if y > height - fastBound then FastSpeed else SlowSpeed;
      } else {
        return None;
      }
      var middlePosition := layout.hit(halfWidth, halfHeight);
      if middlePosition == InvalidPosition {
        middlePosition := layout.hit(halfWidth, halfHeight + layout.dividerHeight);
      }
      var middleView := ChildByIndex(layout, middlePosition);
      if middleView.Some? {
        scroll := Some(SetSelectionFromTop(middlePosition, middleView.value.top - speed));
      } else {
        scroll := None;
      }
    }

    /** The position hit-testing gives for the point of `event`. */
    function EventToPosition(event: MotionEvent, layout: ListLayout): (p: int)
      requires Fits(layout)
      reads this
      ensures p == InvalidPosition || 0 <= p < adapter.items.Length
    {
      layout.hit(event.x, event.y)
    }
  }

  /** A long press over empty space while a drag is open closes the drag in
      the view only: the row stays hidden, the image stays shown, and the
      release that follows is not consumed, so nothing removes them. */
  method MissedRestartKeepsImage<T>(v: DragListView<T>, press: MotionEvent, layout: ListLayout)
    requires v.Valid() && v.Fits(layout) && v.dragging
    requires layout.hit(press.x, press.y) == InvalidPosition
    modifies v, v.adapter, v.popupView, v.popupView.itemLocation
    ensures v.Valid() && !v.dragging
    ensures v.popupView.attached && v.adapter.currentPosition != NoDrag
  {
    var started := v.StartDrag(press, layout);
    assert !started;
    var stopped := v.StopDrag();
    assert !stopped;
  }
}
