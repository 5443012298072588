/**
 * `moveSong` (constants/queue.js, duplicated inside the queue modal of
 * components/Component.jsx): take one entry out of a queue and put it back at
 * another position, refusing indices outside the queue.
 */
module Queue {
  import opened Js

  predicate ValidMove<T>(a: seq<T>, from: int, to: int) {
    0 <= from < |a| && 0 <= to < |a|
  }

  /** `moveSong(arr, fromIndex, toIndex)`: remove at `fromIndex`, then insert at `toIndex`. */
  function MoveSong<T>(a: seq<T>, from: int, to: int): (r: seq<T>)
    ensures !ValidMove(a, from, to) ==> r == a
    ensures ValidMove(a, from, to) ==>
      && |r| == |a|
      && r[to] == a[from]
      && multiset(r) == multiset(a)
      && RemoveAt(r, to) == RemoveAt(a, from)
  {
    if !ValidMove(a, from, to) then a
    else
      var rest := RemoveAt(a, from);
      var r := InsertAt(rest, to, a[from]);
      assert RemoveAt(r, to) == rest;
      assert a == a[..from] + [a[from]] + a[from + 1..];
      assert r == rest[..to] + [a[from]] + rest[to..];
      assert rest == rest[..to] + rest[to..];
      assert multiset(r) == multiset(rest[..to]) + multiset{a[from]} + multiset(rest[to..]);
      assert multiset(rest) == multiset(rest[..to]) + multiset(rest[to..]);
      assert multiset(rest) == multiset(a[..from]) + multiset(a[from + 1..]);
      assert multiset(a) == multiset(a[..from]) + multiset{a[from]} + multiset(a[from + 1..]);
      assert multiset(r) == multiset(rest) + multiset{a[from]};
      r
  }

  /** Putting back an element where it was taken out restores the sequence. */
  lemma InsertRemoved<T>(a: seq<T>, i: nat)
    requires i < |a|
    ensures InsertAt(RemoveAt(a, i), i, a[i]) == a
  {
    var b := InsertAt(RemoveAt(a, i), i, a[i]);
    assert forall k :: 0 <= k < |a| ==> b[k] == a[k];
  }

  /** Element by element: entries between the two positions shift by one towards `from`, the rest stay. */
  lemma MoveSongAt<T>(a: seq<T>, from: int, to: int, k: int)
    requires ValidMove(a, from, to) && 0 <= k < |a|
    ensures from <= to ==>
      MoveSong(a, from, to)[k] ==
        (if k < from || k > to then a[k] else if k == to then a[from] else a[k + 1])
    ensures to < from ==>
      MoveSong(a, from, to)[k] ==
        (if k < to || k > from then a[k] else if k == to then a[from] else a[k - 1])
  {
    var rest := RemoveAt(a, from);
    assert MoveSong(a, from, to) == InsertAt(rest, to, a[from]);
  }

  /** Moving an entry onto its own position changes nothing. */
  lemma MoveSongSamePosition<T>(a: seq<T>, i: int)
    ensures MoveSong(a, i, i) == a
  {
    if ValidMove(a, i, i) {
      InsertRemoved(a, i);
    }
  }

  /** A move is undone by the move back. */
  lemma MoveSongUndo<T>(a: seq<T>, from: int, to: int)
    requires ValidMove(a, from, to)
    ensures MoveSong(MoveSong(a, from, to), to, from) == a
  {
    var r := MoveSong(a, from, to);
    assert ValidMove(r, to, from);
    calc {
      MoveSong(r, to, from);
      InsertAt(RemoveAt(r, to), from, r[to]);
      InsertAt(RemoveAt(a, from), from, a[from]);
      { InsertRemoved(a, from); }
      a;
    }
  }

  /** Where the entry at position `k` ends up after moving `from` to `to`. */
  function MovedIndex(from: nat, to: nat, k: nat): nat {
    if k == from then to
    else if from < k <= to then k - 1
    else if to <= k < from then k + 1
    else k
  }

  /** Every entry is found after the move at its moved position. */
  lemma MoveSongTracks<T>(a: seq<T>, from: int, to: int, k: int)
    requires ValidMove(a, from, to) && 0 <= k < |a|
    ensures MovedIndex(from, to, k) < |a|
    ensures MoveSong(a, from, to)[MovedIndex(from, to, k)] == a[k]
  {
    var j := MovedIndex(from, to, k);
    MoveSongAt(a, from, to, j);
  }
}
