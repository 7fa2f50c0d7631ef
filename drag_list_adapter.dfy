/**
 * The list adapter: a fixed-length table of items and the slot of the item
 * being dragged, which the renderer hides while the floating image stands in
 * for it.  The items are opaque values of type T.
 */
module Adapter {
  import opened Reorder

  /** Marker value meaning that no item is being dragged. */
  const NoDrag := -1

  class DragListAdapter<T> {
    const items: array<T>
    var currentPosition: int

    /** The adapter starts with no item being dragged. */
    constructor (initial: seq<T>)
      ensures fresh(items) && items[..] == initial
      ensures currentPosition == NoDrag
    {
      items := new T[|initial|](i requires 0 <= i < |initial| => initial[i]);
      currentPosition := NoDrag;
    }

    /** Number of rows the list shows: one per item of the table. */
    function GetCount(): (n: nat)
      reads items
      ensures n == |items[..]|
    {
      items.Length
    }

    /** Whether the row at `position` is hidden while being drawn. */
    function IsHidden(position: int): (hidden: bool)
      reads this
      ensures currentPosition == NoDrag && position >= 0 ==> !hidden
    {
      position == currentPosition
    }

    /** Builds the row for `position`: its item, and whether it is drawn. */
    method GetView(position: int) returns (text: T, visible: bool)
      requires 0 <= position < items.Length
      ensures text == items[position]
      ensures visible <==> position != currentPosition
      ensures !visible ==> forall p :: 0 <= p < items.Length && p != position ==> !IsHidden(p)
    {
      text := items[position];
      if position == currentPosition {
        visible := false;
      } else {
        visible := true;
      }
    }

    /** Records the slot of the item that has been picked up. */
    method StartDrag(position: int)
      modifies this`currentPosition
      ensures currentPosition == position
      ensures forall p :: IsHidden(p) <==> p == position
    {
      currentPosition := position;
    }

    /** Carries the picked-up item to `newPosition`, shifting only the rows
        between its old and its new slot by one. */
    method DoDrag(newPosition: int)
      requires 0 <= currentPosition < items.Length
      requires 0 <= newPosition < items.Length
      modifies this`currentPosition, items
      ensures items[..] == Moved(old(items[..]), old(currentPosition), newPosition)
      ensures multiset(items[..]) == multiset(old(items[..]))
      ensures GetCount() == |old(items[..])|
      ensures currentPosition == newPosition
    {
      ghost var s := items[..];
      var cur := currentPosition;
      var item := items[cur];
      if cur < newPosition {
        var i := cur;
        while i < newPosition
          invariant cur <= i <= newPosition
          invariant forall k :: cur <= k < i ==> items[k] == s[k + 1]
          invariant forall k :: 0 <= k < items.Length && !(cur <= k < i) ==> items[k] == s[k]
        {
          items[i] := items[i + 1];
          i := i + 1;
        }
      } else if cur > newPosition {
        var i := cur;
        while i > newPosition
          invariant newPosition <= i <= cur
          invariant forall k :: i < k <= cur ==> items[k] == s[k - 1]
          invariant forall k :: 0 <= k < items.Length && !(i < k <= cur) ==> items[k] == s[k]
        {
          items[i] := items[i - 1];
          i := i - 1;
        }
      }
      items[newPosition] := item;
      assert item == s[cur];
      forall k | 0 <= k < items.Length
        ensures items[k] == Moved(s, cur, newPosition)[k]
      {
        MovedAt(s, cur, newPosition, k);
      }
      assert items[..] == Moved(s, cur, newPosition);
      MovedPermutes(s, cur, newPosition);
      currentPosition := newPosition;
    }

    /** Forgets the dragged slot, so that every row is drawn again. */
    method StopDrag()
      modifies this`currentPosition
      ensures currentPosition == NoDrag
      ensures forall p :: 0 <= p ==> !IsHidden(p)
    {
      currentPosition := NoDrag;
    }
  }
}
