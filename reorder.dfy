/**
 * The meaning of one reorder step on the list's backing sequence: the
 * carried item is taken out of its slot and put back in at the new slot.
 * The adapter's in-place shifting loops are proved against `Moved`.
 */
module Reorder {

  /** `s` with the element at `i` taken out. */
  function Remove<T>(s: seq<T>, i: nat): (r: seq<T>)
    requires i < |s|
    ensures |r| == |s| - 1
  {
    s[..i] + s[i + 1..]
  }

  /** `s` with `x` put in at slot `i`. */
  function Insert<T>(s: seq<T>, i: nat, x: T): (r: seq<T>)
    requires i <= |s|
    ensures |r| == |s| + 1
  {
    s[..i] + [x] + s[i..]
  }

  /** The list after the item at `from` is carried to `to`. */
  function Moved<T>(s: seq<T>, from: nat, to: nat): (r: seq<T>)
    requires from < |s| && to < |s|
    ensures |r| == |s|
  {
    Insert(Remove(s, from), to, s[from])
  }

  /** What a single slot of the moved list holds: the carried item at `to`,
      the neighbour one slot further along inside the span it crossed, and
      the old value everywhere else. */
  ghost function ShiftedAt<T>(s: seq<T>, from: nat, to: nat, k: nat): T
    requires from < |s| && to < |s| && k < |s|
  {
    if k == to then s[from]
    else if from < to && from <= k < to then s[k + 1]
    else if to < from && to < k <= from then s[k - 1]
    else s[k]
  }

  lemma RemoveAt<T>(s: seq<T>, i: nat, k: nat)
    requires i < |s| && k < |s| - 1
    ensures Remove(s, i)[k] == if k < i then s[k] else s[k + 1]
  {
  }

  lemma InsertAt<T>(s: seq<T>, i: nat, x: T, k: nat)
    requires i <= |s| && k <= |s|
    ensures Insert(s, i, x)[k] == if k < i then s[k] else if k == i then x else s[k - 1]
  {
  }

  /** Slot by slot, `Moved` is the shift the adapter performs: inside the
      crossed span every slot takes its neighbour's value, `to` takes the
      carried item, and nothing outside the span changes. */
  lemma MovedAt<T>(s: seq<T>, from: nat, to: nat, k: nat)
    requires from < |s| && to < |s| && k < |s|
    ensures Moved(s, from, to)[k] == ShiftedAt(s, from, to, k)
  {
    var r := Remove(s, from);
    if k < to {
      InsertAt(r, to, s[from], k);
      RemoveAt(s, from, k);
    } else if k > to {
      InsertAt(r, to, s[from], k);
      RemoveAt(s, from, k - 1);
    }
  }

  /** Every slot of the moved list, stated for all slots at once. */
  lemma MovedShape<T>(s: seq<T>, from: nat, to: nat)
    requires from < |s| && to < |s|
    ensures Moved(s, from, to)[to] == s[from]
    ensures from < to ==> forall k :: from <= k < to ==> Moved(s, from, to)[k] == s[k + 1]
    ensures to < from ==> forall k :: to < k <= from ==> Moved(s, from, to)[k] == s[k - 1]
    ensures forall k :: 0 <= k < |s| && ((k < from && k < to) || (k > from && k > to)) ==> Moved(s, from, to)[k] == s[k]
  {
    forall k | 0 <= k < |s| {
      MovedAt(s, from, to, k);
    }
  }

  /** Carrying an item onto its own slot changes nothing. */
  lemma MovedSelf<T>(s: seq<T>, i: nat)
    requires i < |s|
    ensures Moved(s, i, i) == s
  {
    forall k | 0 <= k < |s| ensures Moved(s, i, i)[k] == s[k] {
      MovedAt(s, i, i, k);
    }
  }

  lemma MultisetSplit<T>(s: seq<T>, i: nat)
    requires i < |s|
    ensures multiset(s) == multiset(s[..i]) + multiset{s[i]} + multiset(s[i + 1..])
  {
    assert s == s[..i] + [s[i]] + s[i + 1..];
  }

  /** A reorder step only permutes the list. */
  lemma MovedPermutes<T>(s: seq<T>, from: nat, to: nat)
    requires from < |s| && to < |s|
    ensures multiset(Moved(s, from, to)) == multiset(s)
  {
    var r := Remove(s, from);
    var m := Moved(s, from, to);
    assert m[..to] == r[..to];
    assert m[to + 1..] == r[to..];
    assert r == r[..to] + r[to..];
    calc {
      multiset(m);
      { MultisetSplit(m, to); }
      multiset(r[..to]) + multiset{s[from]} + multiset(r[to..]);
      multiset(r) + multiset{s[from]};
      { assert r == s[..from] + s[from + 1..]; }
      multiset(s[..from]) + multiset(s[from + 1..]) + multiset{s[from]};
      { MultisetSplit(s, from); }
      multiset(s);
    }
  }

  /** Taking out again the item just put in gives back the list it went into. */
  lemma RemoveInsert<T>(s: seq<T>, i: nat, x: T)
    requires i <= |s|
    ensures Insert(s, i, x)[i] == x
    ensures Remove(Insert(s, i, x), i) == s
  {
    var t := Insert(s, i, x);
    assert t[..i] == s[..i];
    assert t[i + 1..] == s[i..];
  }

  /** Two consecutive steps of one drag amount to a single step from where the
      item was picked up to where it is now. */
  lemma MovedCompose<T>(s: seq<T>, a: nat, b: nat, c: nat)
    requires a < |s| && b < |s| && c < |s|
    ensures Moved(Moved(s, a, b), b, c) == Moved(s, a, c)
  {
    RemoveInsert(Remove(s, a), b, s[a]);
  }

  /** Dragging the item back to where it came from restores the list. */
  lemma MovedBack<T>(s: seq<T>, from: nat, to: nat)
    requires from < |s| && to < |s|
    ensures Moved(Moved(s, from, to), to, from) == s
  {
    MovedCompose(s, from, to, from);
    MovedSelf(s, from);
  }

  /** Moving down, moving up and not moving, on a seven-item list. */
  lemma MovedExamples()
    ensures Moved(['A', 'B', 'C', 'D', 'E', 'F', 'G'], 2, 5) == ['A', 'B', 'D', 'E', 'F', 'C', 'G']
    ensures Moved(['A', 'B', 'C', 'D', 'E', 'F', 'G'], 5, 2) == ['A', 'B', 'F', 'C', 'D', 'E', 'G']
    ensures Moved(['A', 'B', 'C', 'D', 'E', 'F', 'G'], 3, 3) == ['A', 'B', 'C', 'D', 'E', 'F', 'G']
  {
    var s := ['A', 'B', 'C', 'D', 'E', 'F', 'G'];
    assert Remove(s, 2) == ['A', 'B', 'D', 'E', 'F', 'G'];
    assert Remove(s, 5) == ['A', 'B', 'C', 'D', 'E', 'G'];
    MovedSelf(s, 3);
  }
}
