# Drag-to-reorder list, modelled in Dafny

This project models the drag-to-reorder logic of an Android list (the
`dragList` sample app). You long-press a row to pick it up. While you drag,
a floating image of the row follows your finger, and the list's backing
table is reordered in place each time the finger is over another row. Near
the top or bottom edge the list auto-scrolls. Releasing, cancelling or
touching outside the list puts the row down. Android's view and window calls
are replaced by plain values.

The model has six modules, one file each. `Options` (`options.dfy`) only
declares the `Option` datatype; the other five are:

- `Reorder` (`reorder.dfy`): `Moved(s, from, to)`, the meaning of one
  reorder step: take the carried item out and put it back in at `to`. The
  lemmas establish these facts about it:
  - the shift it amounts to, slot by slot;
  - it is a permutation;
  - moving an item onto its own slot changes nothing;
  - two steps of one drag compose into one step;
  - moving back restores the list.
- `Adapter` (`drag_list_adapter.dfy`): class `DragListAdapter<T>`. It holds
  the fixed-length `items` array and the `currentPosition` marker, which is
  -1 when nothing is dragged. `DoDrag` keeps the source's two in-place
  shifting loops and is proved equal to `Moved`. `GetView` keeps only the
  rule that hides one row.
- `Scroll` (`scroll_policy.dfy`): the auto-scroll policy run on every move.
  - A 500 time-unit grace period.
  - Bands at `height/9` and `height/4`, with speeds ±25 and ±8 and a dead
    zone between the bands.
  - The row at the viewport centre is the anchor. If that point misses, the
    lookup is retried one divider height lower.
  - The result is the list's `setSelectionFromTop` call, or none.

  The renderer's state at one moment is a `ListLayout` value. Hit-testing
  (`pointToPosition`) is a function field of it. `ValidLayout` requires that
  width, height and first visible position are not negative, and that
  hit-testing returns -1 or the position of a visible row.
- `Popup` (`popup_view.dfy`): class `PopupView`, the floating image. It keeps
  the `dragging` flag, the drag origin `baseX`/`baseY`, the row's window
  location `itemLocation` and the layout position.
  - Adding the view to and removing it from the window manager is the
    `attached` flag.
  - `AddView` refuses a view that is already attached, as the window manager
    does. So verifying `StartDrag` shows that an open drag is always closed
    before a new image is added.
- `DragList` (`drag_list_view.dfy`): class `DragListView<T>`, the drag
  controller. It keeps the `dragging` flag and the buffered press
  `downEvent`, dispatches touch events, and drives the adapter and the
  popup.
  - Its invariant `Valid()` says the image is shown exactly while some row
    is hidden.
  - It also says that during a drag the table equals
    `Moved(orderAtDragStart, originSlot, currentSlot)`: a whole drag is one
    move.
  - The table stays a permutation of the list that was attached.

Behaviour of the code worth knowing, which the model keeps:

- The grace period is measured from the press (`getEventTime() - getDownTime()`),
  not from the moment the drag starts. The press comes before the long
  press that starts the drag.
- During the grace period the code sets the speed to 0 and still re-anchors
  the centre row at its current top (`setSelectionFromTop(p, top - 0)`).
  Only the dead zone returns with no call. `ScrollFor` and
  `GraceKeepsPlace` state this.
- A long press during an open drag does not always close that drag first.
  The ghost image is torn down only when the new long press hits a row.
  When it lands on empty space, `startDrag` clears `dragging` and leaves the
  adapter marker and the image alone. The following release is then not
  consumed, so the row stays hidden and the image stays shown until the next
  successful drag. `DragList.MissedRestartKeepsImage` shows this sequence.
- The long-press handler ignores the position Android passes to it. It uses
  the buffered press event instead.

## Model

| member | source | states |
|---|---|---|
| `Reorder.Moved` | app/src/main/java/com/example/draglistviewapp/DragListAdapter.java:35-37 | a reorder step keeps the number of rows |
| `Reorder.MovedAt` | app/src/main/java/com/example/draglistviewapp/DragListAdapter.java:84-96 | slot k after the step: carried item at the target slot; slot i takes old i+1 when moving down in [cur, n) and old i-1 when moving up in (n, cur]; any other slot unchanged |
| `Reorder.MovedShape` | app/src/main/java/com/example/draglistviewapp/DragListAdapter.java:85-96 | the same shift stated for all slots at once: target gets the carried item, the crossed span shifts by one, slots outside [min, max] keep their values |
| `Reorder.MovedSelf` | app/src/main/java/com/example/draglistviewapp/DragListAdapter.java:84-96 | carrying an item onto its own slot leaves the list identical |
| `Reorder.MovedPermutes` | app/src/main/java/com/example/draglistviewapp/DragListAdapter.java:83-99 | a reorder step is a permutation: same multiset of items |
| `Reorder.MovedCompose` | app/src/main/java/com/example/draglistviewapp/draglist/DragListView.java:133-136 | two consecutive reorders of one drag equal one reorder from the first slot to the last |
| `Reorder.MovedBack` | app/src/main/java/com/example/draglistviewapp/DragListAdapter.java:83-99 | dragging back to the original slot restores the original list |
| `Reorder.MovedExamples` | app/src/main/java/com/example/draglistviewapp/DragListAdapter.java:83-99 | on a seven-item list: 2→5 gives ABDEFCG, 5→2 gives ABFCDEG, 3→3 changes nothing |
| `Adapter.DragListAdapter.constructor` | app/src/main/java/com/example/draglistviewapp/DragListAdapter.java:16-32 | the table holds the given items and the marker starts at -1 (no drag) |
| `Adapter.DragListAdapter.GetCount` | app/src/main/java/com/example/draglistviewapp/DragListAdapter.java:35-37 | the list has one row per item of the table |
| `Adapter.DragListAdapter.IsHidden` | app/src/main/java/com/example/draglistviewapp/DragListAdapter.java:65-69 | with no drag open, no row is hidden |
| `Adapter.DragListAdapter.GetView` | app/src/main/java/com/example/draglistviewapp/DragListAdapter.java:53-71 | a row shows its item and is invisible iff its position is the marker, so no other row is hidden |
| `Adapter.DragListAdapter.StartDrag` | app/src/main/java/com/example/draglistviewapp/DragListAdapter.java:76-78 | the marker becomes the given position, exactly that row is hidden, and the items are not touched |
| `Adapter.DragListAdapter.DoDrag` | app/src/main/java/com/example/draglistviewapp/DragListAdapter.java:83-99 | requires marker and target in range; the table becomes `Moved(old table, old marker, target)`, is a permutation of the old one, keeps its count, and the marker becomes the target |
| `Adapter.DragListAdapter.StopDrag` | app/src/main/java/com/example/draglistviewapp/DragListAdapter.java:104-106 | the marker is reset to -1, no row is hidden, the items are not touched |
| `Scroll.HitHasRow` | app/src/main/java/com/example/draglistviewapp/draglist/DragListView.java:103-112 | on a well-formed layout, a position found by hit-testing always has an on-screen row, so `getChildByIndex` never comes back empty for it |
| `Scroll.ScrollSpeed` | app/src/main/java/com/example/draglistviewapp/draglist/DragListView.java:181-195 | within the grace period the speed is 0; any speed lies in [−25, 25]; an upward speed only in the top quarter and a downward one only in the bottom quarter |
| `Scroll.GraceMeansStill` | app/src/main/java/com/example/draglistviewapp/draglist/DragListView.java:184-186 | less than 500 after the press the speed is 0 whatever y is |
| `Scroll.SpeedTiers` | app/src/main/java/com/example/draglistviewapp/draglist/DragListView.java:182-195 | after the grace period: −25 iff y < h/9, −8 iff h/9 ≤ y < h/4, no scroll iff h/4 ≤ y ≤ h − h/4, +8 iff h − h/4 < y ≤ h − h/9, +25 iff y > h − h/9 |
| `Scroll.SpeedMonotone` | app/src/main/java/com/example/draglistviewapp/draglist/DragListView.java:184-195 | for fixed height and time, a lower pointer never gives a more upward speed (dead zone counted as 0) |
| `Scroll.CentreIsStill` | app/src/main/java/com/example/draglistviewapp/draglist/DragListView.java:187-195 | after the grace period the middle of the list is in the dead zone |
| `Scroll.SpeedExamples` | app/src/main/java/com/example/draglistviewapp/draglist/DragListView.java:182-195 | height 900: y=50 gives −25, y=150 gives −8, y=450 no scroll, y=700 gives +8, y=850 gives +25, and 0 within the grace period |
| `Scroll.AnchorPosition` | app/src/main/java/com/example/draglistviewapp/draglist/DragListView.java:201-205 | on a well-formed layout the anchor (centre, retried one divider lower) is -1 or a row on screen |
| `Scroll.ScrollFor` | app/src/main/java/com/example/draglistviewapp/draglist/DragListView.java:174-212 | on a well-formed layout a scroll happens iff the speed is not the dead zone and the anchor lookup (with its retry) finds a row; it targets that row and sets its top to the row's current top − speed |
| `Scroll.AnchorMissMeansNoScroll` | app/src/main/java/com/example/draglistviewapp/draglist/DragListView.java:201-211 | when both centre lookups miss, no scroll call is made |
| `Scroll.GraceKeepsPlace` | app/src/main/java/com/example/draglistviewapp/draglist/DragListView.java:184-186 | within the grace period a scroll re-anchors the row at its own top, and it always does so when the centre hits a row |
| `Popup.Placement` | app/src/main/java/com/example/draglistviewapp/PopupView.java:130-134 | the pointer can be recovered from the placement (`PointerFor` undoes it), and a pointer still at the drag origin puts the image on the row lifted by 20 |
| `Popup.PlacementAtStart` | app/src/main/java/com/example/draglistviewapp/PopupView.java:130-134 | with the pointer at the drag origin the image is at the row's location lifted by 20 |
| `Popup.PlacementFollowsPointer` | app/src/main/java/com/example/draglistviewapp/PopupView.java:130-134 | the image moves by exactly the pointer's displacement |
| `Popup.PlacementRoundTrip` | app/src/main/java/com/example/draglistviewapp/PopupView.java:130-134 | the image position and the pointer position determine each other (`PointerFor` inverts `Placement`) |
| `Popup.PopupView.constructor` | app/src/main/java/com/example/draglistviewapp/PopupView.java:32-38 | a new image is not dragging and not attached, with a two-slot location array |
| `Popup.PopupView.StartDrag` | app/src/main/java/com/example/draglistviewapp/PopupView.java:43-64 | closes an open drag first (so the view is never added twice); ends dragging and attached, origin = pointer, location = row's window location, layout = (loc x, loc y − 20) |
| `Popup.PopupView.DoDrag` | app/src/main/java/com/example/draglistviewapp/PopupView.java:69-78 | when not dragging nothing changes; otherwise the layout becomes the placement for the new pointer |
| `Popup.PopupView.StopDrag` | app/src/main/java/com/example/draglistviewapp/PopupView.java:83-92 | afterwards not dragging and not attached; a no-op when not dragging |
| `Popup.PopupView.UpdateLayoutParams` | app/src/main/java/com/example/draglistviewapp/PopupView.java:130-134 | layout = itemLocation + (pointer − base) − (0, 20) |
| `Popup.PopupView.AddView` | app/src/main/java/com/example/draglistviewapp/PopupView.java:62 | the window manager accepts the view only when it is not already attached |
| `Popup.PopupView.RemoveView` | app/src/main/java/com/example/draglistviewapp/PopupView.java:90 | the window manager removes an attached view |
| `Popup.MovesForgetHistory` | app/src/main/java/com/example/draglistviewapp/PopupView.java:69-78 | after two moves the image is where the last pointer alone puts it |
| `DragList.DragListView.constructor` | app/src/main/java/com/example/draglistviewapp/draglist/DragListView.java:33-46 | a list bound to an adapter with no drag, no buffered press, a fresh image, and the invariant established |
| `DragList.DragListView.OnItemLongClick` | app/src/main/java/com/example/draglistviewapp/draglist/DragListView.java:53-55 | a long press starts a drag at the buffered press: consumed iff that press hits a row, `dragging` equals the answer; on success the marker is the hit row, the image is attached with its origin at the press; on a miss the adapter and the image are untouched |
| `DragList.DragListView.OnTouchEvent` | app/src/main/java/com/example/draglistviewapp/draglist/DragListView.java:62-84 | a press is buffered, always delegated, and changes nothing else; move/up/cancel/outside are consumed iff a drag was open, and change nothing when none was; a move in a drag reorders to the hit row (or not at all on a miss), keeps the image's origin and places it by the pointer, and scrolls as `ScrollFor` says; up/cancel/outside end the drag without reordering; an unconsumed event returns the default handler's answer |
| `DragList.DragListView.StoreMotionEvent` | app/src/main/java/com/example/draglistviewapp/draglist/DragListView.java:89-91 | the press is buffered |
| `DragList.DragListView.StartDrag` | app/src/main/java/com/example/draglistviewapp/draglist/DragListView.java:96-118 | succeeds iff the hit test gives a position ≥ 0, and `dragging` equals the result; on a miss the adapter and image are untouched; on success the marker is the hit position and the image shows the row at its window location, with the invariant kept |
| `DragList.DragListView.DoDrag` | app/src/main/java/com/example/draglistviewapp/draglist/DragListView.java:123-148 | without a drag: false, no change; with one: true, the table is reordered to the hit row only when the hit is valid, only the image's layout position changes and it follows the pointer from the unchanged origin, the scroll is `ScrollFor`, and the table stays one `Moved` from the drag's start |
| `DragList.DragListView.StopDrag` | app/src/main/java/com/example/draglistviewapp/draglist/DragListView.java:153-168 | without a drag: false and nothing changes; with one: true, marker −1, image detached, not dragging |
| `DragList.DragListView.SetScroll` | app/src/main/java/com/example/draglistviewapp/draglist/DragListView.java:174-212 | the source's if-chain with its early return computes exactly `ScrollFor` |
| `DragList.DragListView.EventToPosition` | app/src/main/java/com/example/draglistviewapp/draglist/DragListView.java:217-219 | the position under an event is -1 or a valid index of the adapter |
| `DragList.MissedRestartKeepsImage` | app/src/main/java/com/example/draglistviewapp/draglist/DragListView.java:97-106 | a long press over empty space during a drag leaves `dragging` false with the row still hidden and the image still attached, and the next stop does nothing |

## Left out

- Android hit-testing, `getFirstVisiblePosition`, `getChildAt`, `getTop`, `getLocationInWindow`, `getWidth`/`getHeight` and `getDividerHeight` are not modelled as code. They are the fields of a `ListLayout` value. `ValidLayout` states their ranges: width, height and first visible position are not negative, and a hit is -1 or a visible row. The divider height is not constrained.
- `setSelectionFromTop` is not called. `ScrollFor` and `SetScroll` return the call as a `ScrollRequest` value instead.
- `invalidateViews` and `updateViewLayout` change nothing the model tracks, so they are left out.
- `super.onTouchEvent` (default scrolling and long-press detection) is left out. Its answer is the `superResult` parameter, and the model records only whether it is called.
- `PopupView.setBitmap`, `initLayoutParams` and the window flags only rasterise and style the image, so they are left out.
- `getView`'s TextView creation and text size are left out. Only the visibility rule and the item shown are kept.
- What the items contain does not matter to the logic: they are an opaque type `T`.
- `DragListActivity.java` is not part of this model. It only wires up the views.
- `setAdapter`'s runtime type check is left out. The adapter is a `DragListAdapter` by type, and is passed to the constructor.
- A long press with no buffered press is excluded by a precondition (`downEvent.Some?`). In the source it would fail with a null pointer.
- Java's `items` array is `static`, so every adapter shares one table. The model gives each adapter its own array.
- Touch coordinates are floats that the source truncates with `(int)`. The model takes the truncated integers as input.
- Coordinates and sizes are 32-bit `int` in the source. The model uses unbounded integers and does not model overflow in `itemLocation + x - baseX`, `y - baseY - 20`, `getTop() - speed` or `halfHeight + getDividerHeight()`.
- Times are `long` in the source. The model uses unbounded integers and does not model overflow of `eventTime - downTime`.
- `Scroll.ScrollSpeed` requires a height that is not negative, and `Scroll.ScrollFor` a well-formed layout, as `getHeight()`, `getWidth()` and `pointToPosition` guarantee. With sizes not negative, Java's truncating `/` and Dafny's `/` agree.
