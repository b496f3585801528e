/**
 * The palette slice's reducers as functions from the old state to the new one, with the history
 * (undo/redo) laws, the lock bookkeeping of delete and reorder, resizing, and the generate thunk.
 */
module PaletteReducers {
  import opened Wrappers
  import opened Chroma
  import opened PaletteState
  import opened Indices
  import Color

  /** The lock list the reducers keep: strictly increasing (hence without repeats) and non-negative. */
  predicate WellFormed(s: State) {
    Strict(s.lockedIndices) && forall k :: 0 <= k < |s.lockedIndices| ==> s.lockedIndices[k] >= 0
  }

  lemma InitialStateWellFormed()
    ensures WellFormed(InitialState)
    ensures InitialState.currentPalette == [] && InitialState.past == [] && InitialState.future == []
  {
  }

  // ---------------------------------------------------------------- view toggles

  function ToggleViewMode(s: State): (r: State)
    ensures r.viewMode != s.viewMode
    ensures r == s.(viewMode := r.viewMode)
  {
    s.(viewMode := if s.viewMode == Compact then Full else Compact)
  }

  function ToggleLayout(s: State): (r: State)
    ensures r.layout != s.layout
    ensures r == s.(layout := r.layout)
  {
    s.(layout := if s.layout == Horizontal then Vertical else Horizontal)
  }

  /** Each view toggle undoes itself. */
  lemma ToggleViewTwice(s: State)
    ensures ToggleViewMode(ToggleViewMode(s)) == s
    ensures ToggleLayout(ToggleLayout(s)) == s
  {
  }

  // ---------------------------------------------------------------- history

  /** The palettes in history order: the past, the current palette, then the future. */
  function Timeline(s: State): seq<seq<ColorSwatch>> {
    s.past + [s.currentPalette] + s.future
  }

  /** undo: with a past, steps one palette back along the same timeline; otherwise changes nothing. */
  function Undo(s: State): (r: State)
    ensures Timeline(r) == Timeline(s)
    ensures |r.past| == if |s.past| > 0 then |s.past| - 1 else 0
    ensures r.lockedIndices == s.lockedIndices && r.viewMode == s.viewMode && r.layout == s.layout
    ensures r.status == s.status && r.error == s.error
  {
    if |s.past| > 0 then
      var previous := s.past[|s.past| - 1];
      assert s.past == s.past[..|s.past| - 1] + [previous];
      s.(future := [s.currentPalette] + s.future, currentPalette := previous, past := s.past[..|s.past| - 1])
    else s
  }

  /** redo: with a future, steps one palette forward along the same timeline; otherwise changes nothing. */
  function Redo(s: State): (r: State)
    ensures Timeline(r) == Timeline(s)
    ensures |r.past| == if |s.future| > 0 then |s.past| + 1 else |s.past|
    ensures r.lockedIndices == s.lockedIndices && r.viewMode == s.viewMode && r.layout == s.layout
    ensures r.status == s.status && r.error == s.error
  {
    if |s.future| > 0 then
      var next := s.future[0];
      assert s.future == [next] + s.future[1..];
      s.(past := s.past + [s.currentPalette], currentPalette := next, future := s.future[1..])
    else s
  }

  /** A state is fixed by its timeline and its position on it. */
  lemma {:induction false} TimelinePosition(s: State, t: State)
    requires Timeline(s) == Timeline(t) && |s.past| == |t.past|
    requires s.lockedIndices == t.lockedIndices && s.viewMode == t.viewMode && s.layout == t.layout
    requires s.status == t.status && s.error == t.error
    ensures s == t
  {
    var n := |s.past|;
    assert s.past == Timeline(s)[..n] && t.past == Timeline(t)[..n];
    assert s.currentPalette == Timeline(s)[n] && t.currentPalette == Timeline(t)[n];
    assert s.future == Timeline(s)[n + 1..] && t.future == Timeline(t)[n + 1..];
  }

  /** Redo after undo, and undo after redo, give back the state. */
  lemma UndoRedo(s: State)
    ensures |s.past| > 0 ==> Redo(Undo(s)) == s
    ensures |s.future| > 0 ==> Undo(Redo(s)) == s
  {
    if |s.past| > 0 {
      TimelinePosition(Redo(Undo(s)), s);
    }
    if |s.future| > 0 {
      TimelinePosition(Undo(Redo(s)), s);
    }
  }

  function UndoN(s: State, k: nat): (r: State)
    ensures Timeline(r) == Timeline(s)
    ensures k <= |s.past| ==> |r.past| == |s.past| - k
    ensures r.lockedIndices == s.lockedIndices && r.viewMode == s.viewMode && r.layout == s.layout
    ensures r.status == s.status && r.error == s.error
  {
    if k == 0 then s else Undo(UndoN(s, k - 1))
  }

  function RedoN(s: State, k: nat): (r: State)
    ensures Timeline(r) == Timeline(s)
    ensures k <= |s.future| ==> |r.future| == |s.future| - k
    ensures r.lockedIndices == s.lockedIndices && r.viewMode == s.viewMode && r.layout == s.layout
    ensures r.status == s.status && r.error == s.error
    decreases k
  {
    if k == 0 then s else RedoN(Redo(s), k - 1)
  }

  /** Undoing k edits, k no more than the past holds, and redoing k gives back the state. */
  lemma {:induction false} UndoRedoN(s: State, k: nat)
    requires k <= |s.past|
    ensures RedoN(UndoN(s, k), k) == s
  {
    if k > 0 {
      var before := UndoN(s, k - 1);
      assert |before.past| > 0;
      UndoRedo(before);
      assert Redo(UndoN(s, k)) == before;
      UndoRedoN(s, k - 1);
    }
  }

  /**
   * The synchronous edits append the palette as it is after the edit to the past and leave the
   * future alone.
   */
  predicate RecordsEdit(s: State, t: State) {
    t.past == s.past + [t.currentPalette] && t.future == s.future
  }

  /**
   * So undo right after such an edit leaves the palette as it is: the past's last entry is the
   * current palette.
   */
  lemma UndoAfterEdit(s: State, t: State)
    requires RecordsEdit(s, t)
    ensures Undo(t).currentPalette == t.currentPalette
    ensures Undo(t).past == s.past && Undo(t).future == [t.currentPalette] + s.future
  {
  }

  // ---------------------------------------------------------------- setPalette, toggleLock

  function SetPalette(s: State, palette: seq<ColorSwatch>): (r: State)
    ensures r.currentPalette == palette && r.lockedIndices == s.lockedIndices
    ensures RecordsEdit(s, r)
    ensures WellFormed(s) ==> WellFormed(r)
    ensures r.viewMode == s.viewMode && r.layout == s.layout && r.status == s.status && r.error == s.error
  {
    s.(currentPalette := palette, past := s.past + [palette])
  }

  /** findIndex by swatch value: the first position holding the value, or -1. */
  function FindIndex(palette: seq<ColorSwatch>, value: string): (r: int)
    ensures -1 <= r < |palette|
    ensures r >= 0 ==> palette[r].value == value && forall k :: 0 <= k < r ==> palette[k].value != value
    ensures r == -1 <==> forall k :: 0 <= k < |palette| ==> palette[k].value != value
  {
    if palette == [] then -1
    else if palette[0].value == value then 0
    else
      var rest := FindIndex(palette[1..], value);
      if rest == -1 then -1 else rest + 1
  }

  /** toggleLock: an unknown value changes nothing; otherwise the index is toggled and recorded. */
  function ToggleLock(s: State, id: string): (r: State)
    ensures FindIndex(s.currentPalette, id) == -1 ==> r == s
    ensures FindIndex(s.currentPalette, id) != -1 ==>
              RecordsEdit(s, r) && r.currentPalette == s.currentPalette &&
              r.lockedIndices == Toggle(s.lockedIndices, FindIndex(s.currentPalette, id))
    ensures r.viewMode == s.viewMode && r.layout == s.layout && r.status == s.status && r.error == s.error
  {
    var index := FindIndex(s.currentPalette, id);
    if index == -1 then s
    else s.(lockedIndices := Toggle(s.lockedIndices, index), past := s.past + [s.currentPalette])
  }

  /** Toggling a lock keeps the lock list well formed; toggling the same colour twice restores it. */
  lemma {:induction false} ToggleLockTwice(s: State, id: string)
    requires WellFormed(s)
    ensures WellFormed(ToggleLock(s, id))
    ensures ToggleLock(ToggleLock(s, id), id).lockedIndices == s.lockedIndices
  {
    var index := FindIndex(s.currentPalette, id);
    if index != -1 {
      ToggleTwice(s.lockedIndices, index);
      var locks := Toggle(s.lockedIndices, index);
      forall k | 0 <= k < |locks|
        ensures locks[k] >= 0
      {
        assert locks[k] in multiset(locks);
        if index in s.lockedIndices {
          assert locks[k] in s.lockedIndices;
        } else {
          assert locks[k] in s.lockedIndices + [index];
        }
      }
    }
  }

  // ---------------------------------------------------------------- deleteColor

  /** splice(index, 1). */
  function Remove(palette: seq<ColorSwatch>, index: int): (r: seq<ColorSwatch>)
    requires 0 <= index < |palette|
    ensures |r| == |palette| - 1
    ensures forall k :: 0 <= k < |r| ==> r[k] == palette[if k < index then k else k + 1]
  {
    palette[..index] + palette[index + 1..]
  }

  /** Each lock above the deleted index moves down by one. */
  function ShiftDown(locks: seq<int>, deleted: int): (r: seq<int>)
    ensures |r| == |locks|
    ensures forall k :: 0 <= k < |r| ==> r[k] == if locks[k] > deleted then locks[k] - 1 else locks[k]
  {
    seq(|locks|, k requires 0 <= k < |locks| => if locks[k] > deleted then locks[k] - 1 else locks[k])
  }

  /** The lock list after deleting the colour at `deleted`: shifted down, then the deleted index filtered out. */
  function DeleteLocks(locks: seq<int>, deleted: int): (r: seq<int>)
    ensures |r| <= |locks|
    ensures forall k :: 0 <= k < |r| ==> r[k] != deleted
  {
    Without(ShiftDown(locks, deleted), deleted)
  }

  /**
   * An index stays locked after the deletion exactly when it is below the deleted one and was
   * locked, or above it and the index after it was locked. So every lock below the deleted index
   * stays, every lock from deleted + 2 on follows its colour down, and the lock of the colour
   * right after the deleted one is lost with it.
   */
  lemma {:induction false} DeleteLockMembership(locks: seq<int>, deleted: int, x: int)
    ensures x in DeleteLocks(locks, deleted) <==>
              (x < deleted && x in locks) || (x > deleted && x + 1 in locks)
  {
    var shifted := ShiftDown(locks, deleted);
    WithoutMembers(shifted, deleted);
    if x < deleted && x in locks {
      var k :| 0 <= k < |locks| && locks[k] == x;
      assert shifted[k] == x;
    }
    if x > deleted && x + 1 in locks {
      var k :| 0 <= k < |locks| && locks[k] == x + 1;
      assert shifted[k] == x;
    }
    if x in DeleteLocks(locks, deleted) {
      var k :| 0 <= k < |shifted| && shifted[k] == x;
      assert locks[k] in locks;
    }
  }

  /** The lock list stays strictly increasing through a deletion. */
  lemma {:induction false} DeleteLocksStrict(locks: seq<int>, deleted: int)
    requires Strict(locks) && deleted >= 0 && forall k :: 0 <= k < |locks| ==> locks[k] >= 0
    ensures Strict(DeleteLocks(locks, deleted))
    ensures forall k :: 0 <= k < |DeleteLocks(locks, deleted)| ==> DeleteLocks(locks, deleted)[k] >= 0
  {
    var shifted := ShiftDown(locks, deleted);
    assert Sorted(shifted);
    assert forall i, j :: 0 <= i < j < |shifted| && shifted[i] == shifted[j] ==> shifted[i] == deleted;
    WithoutStrict(shifted, deleted);
  }

  /** Filtering out the only value that repeats leaves a sorted list strictly increasing. */
  lemma {:induction false} WithoutStrict(s: seq<int>, x: int)
    requires Sorted(s)
    requires forall i, j :: 0 <= i < j < |s| && s[i] == s[j] ==> s[i] == x
    ensures Strict(Without(s, x))
  {
    if s != [] {
      var t := s[1..];
      assert forall i, j :: 0 <= i < j < |t| && t[i] == t[j] ==> t[i] == x by {
        forall i, j | 0 <= i < j < |t| && t[i] == t[j]
          ensures t[i] == x
        {
          assert t[i] == s[i + 1] && t[j] == s[j + 1];
        }
      }
      WithoutStrict(t, x);
      if s[0] != x {
        var w := Without(t, x);
        forall k | 0 <= k < |w|
          ensures s[0] < w[k]
        {
          assert w[k] in t;
          var m :| 0 <= m < |t| && t[m] == w[k];
          assert s[m + 1] == w[k];
        }
      }
    }
  }

  /**
   * deleteColor: an unknown value changes nothing; a palette of three colours or fewer keeps its
   * colours and locks but still records the edit; otherwise the colour is removed and the locks
   * are adjusted.
   */
  function DeleteColor(s: State, id: string): (r: State)
    ensures FindIndex(s.currentPalette, id) == -1 ==> r == s
    ensures FindIndex(s.currentPalette, id) != -1 ==> RecordsEdit(s, r)
    ensures FindIndex(s.currentPalette, id) != -1 && |s.currentPalette| <= MinPaletteSize ==>
              r.currentPalette == s.currentPalette && r.lockedIndices == s.lockedIndices
    ensures FindIndex(s.currentPalette, id) != -1 && |s.currentPalette| > MinPaletteSize ==>
              r.currentPalette == Remove(s.currentPalette, FindIndex(s.currentPalette, id)) &&
              r.lockedIndices == DeleteLocks(s.lockedIndices, FindIndex(s.currentPalette, id))
    ensures |r.currentPalette| == if FindIndex(s.currentPalette, id) != -1 && |s.currentPalette| > MinPaletteSize
                                  then |s.currentPalette| - 1 else |s.currentPalette|
    ensures |s.currentPalette| >= MinPaletteSize ==> |r.currentPalette| >= MinPaletteSize
    ensures r.viewMode == s.viewMode && r.layout == s.layout && r.status == s.status && r.error == s.error
  {
    var index := FindIndex(s.currentPalette, id);
    if index == -1 then s
    else if |s.currentPalette| > MinPaletteSize then
      var palette := Remove(s.currentPalette, index);
      s.(currentPalette := palette, lockedIndices := DeleteLocks(s.lockedIndices, index), past := s.past + [palette])
    else s.(past := s.past + [s.currentPalette])
  }

  /**
   * After a deletion every locked index still names the colour it named before: an index below
   * the deleted one the same colour, an index above it the colour that was one further on.
   */
  lemma {:induction false} DeleteKeepsLockedColours(s: State, id: string, x: int)
    requires FindIndex(s.currentPalette, id) != -1 && |s.currentPalette| > MinPaletteSize
    requires x in DeleteColor(s, id).lockedIndices && 0 <= x < |DeleteColor(s, id).currentPalette|
    ensures var d := FindIndex(s.currentPalette, id);
            var old_ := if x < d then x else x + 1;
            old_ in s.lockedIndices && DeleteColor(s, id).currentPalette[x] == s.currentPalette[old_]
  {
    DeleteLockMembership(s.lockedIndices, FindIndex(s.currentPalette, id), x);
  }

  /** The lock of the colour right after the deleted one does not survive the deletion. */
  lemma {:induction false} DeleteDropsNextLock(s: State, id: string)
    requires FindIndex(s.currentPalette, id) != -1 && |s.currentPalette| > MinPaletteSize
    requires FindIndex(s.currentPalette, id) + 1 in s.lockedIndices
    requires FindIndex(s.currentPalette, id) + 1 < |s.currentPalette|
    ensures var d := FindIndex(s.currentPalette, id);
            DeleteColor(s, id).currentPalette[d] == s.currentPalette[d + 1] &&
            d !in DeleteColor(s, id).lockedIndices
  {
    var d := FindIndex(s.currentPalette, id);
    DeleteLockMembership(s.lockedIndices, d, d);
  }

  /**
   * The lock adjustment as the comment above it intends: the deleted index is filtered out first,
   * and only then are the locks above it shifted down by one.
   */
  function DeleteLocksIntended(locks: seq<int>, deleted: int): seq<int> {
    ShiftDown(Without(locks, deleted), deleted)
  }

  /** With the filter first, an index at or above the deleted one is locked exactly when the index after it was. */
  lemma {:induction false} DeleteLocksIntendedMembership(locks: seq<int>, deleted: int, x: int)
    ensures x in DeleteLocksIntended(locks, deleted) <==>
              (x < deleted && x in locks) || (x >= deleted && x + 1 in locks)
  {
    var kept := Without(locks, deleted);
    var shifted := ShiftDown(kept, deleted);
    WithoutMembers(locks, deleted);
    if x < deleted && x in locks {
      var k :| 0 <= k < |kept| && kept[k] == x;
      assert shifted[k] == x;
    }
    if x >= deleted && x + 1 in locks {
      var k :| 0 <= k < |kept| && kept[k] == x + 1;
      assert shifted[k] == x;
    }
    if x in shifted {
      var k :| 0 <= k < |shifted| && shifted[k] == x;
      assert kept[k] in kept;
    }
  }

  /**
   * With the intended adjustment every colour other than the deleted one keeps its lock state:
   * it moves to its new index, and that index is locked exactly when the colour was.
   */
  lemma {:induction false} DeleteLocksIntendedKeepsLocks(palette: seq<ColorSwatch>, locks: seq<int>, deleted: int, l: int)
    requires 0 <= deleted < |palette| && 0 <= l < |palette| && l != deleted
    ensures var n := if l < deleted then l else l - 1;
            0 <= n < |Remove(palette, deleted)| && Remove(palette, deleted)[n] == palette[l] &&
            (n in DeleteLocksIntended(locks, deleted) <==> l in locks)
  {
    DeleteLocksIntendedMembership(locks, deleted, if l < deleted then l else l - 1);
  }

  /** Locks {0, 2}, deleting index 1: the code keeps {0}; the intended adjustment keeps {0, 1}. */
  lemma DeleteLocksExample()
    ensures DeleteLocks([0, 2], 1) == [0]
    ensures DeleteLocksIntended([0, 2], 1) == [0, 1]
  {
    assert ShiftDown([0, 2], 1) == [0, 1];
    assert Without([0, 2], 1) == [0, 2];
  }

  lemma {:induction false} DeleteColorWellFormed(s: State, id: string)
    requires WellFormed(s)
    ensures WellFormed(DeleteColor(s, id))
  {
    var index := FindIndex(s.currentPalette, id);
    if index != -1 && |s.currentPalette| > MinPaletteSize {
      DeleteLocksStrict(s.lockedIndices, index);
    }
  }

  // ---------------------------------------------------------------- reorderPalette

  /** splice(from, 1) then splice(to, 0, moved). */
  function Move(palette: seq<ColorSwatch>, from: int, to: int): (r: seq<ColorSwatch>)
    requires 0 <= from < |palette| && 0 <= to < |palette|
    ensures |r| == |palette|
  {
    var moved := palette[from];
    var rest := palette[..from] + palette[from + 1..];
    rest[..to] + [moved] + rest[to..]
  }

  /** Where the colour at index l ends up when the colour at `from` moves to `to`. */
  function MovedIndex(l: int, from: int, to: int): (r: int)
    ensures r == to <==> l == from
    ensures l != from ==> l - 1 <= r <= l + 1
  {
    if l == from then to
    else if from < to then (if l > from && l <= to then l - 1 else l)
    else (if l >= to && l < from then l + 1 else l)
  }

  /** Moving back undoes the move, index by index; so the index map is one-to-one. */
  lemma MovedIndexInverse(l: int, from: int, to: int)
    ensures MovedIndex(MovedIndex(l, from, to), to, from) == l
    ensures 0 <= from && 0 <= to && 0 <= l ==> 0 <= MovedIndex(l, from, to)
  {
  }

  /** The colour at index l is found at MovedIndex(l) after the move. */
  lemma {:induction false} MoveTracksIndex(palette: seq<ColorSwatch>, from: int, to: int, l: int)
    requires 0 <= from < |palette| && 0 <= to < |palette| && 0 <= l < |palette|
    ensures 0 <= MovedIndex(l, from, to) < |palette|
    ensures Move(palette, from, to)[MovedIndex(l, from, to)] == palette[l]
  {
    var rest := palette[..from] + palette[from + 1..];
    var r := Move(palette, from, to);
    assert r == rest[..to] + [palette[from]] + rest[to..];
    if l == from {
      assert r[to] == palette[from];
    } else {
      // l's position once the moved colour is taken out, then once it is put back
      var k := if l < from then l else l - 1;
      assert rest[k] == palette[l];
      var m := MovedIndex(l, from, to);
      assert m == if k < to then k else k + 1;
      if k < to {
        assert r[m] == rest[..to][k];
      } else {
        assert r[m] == rest[to..][k - to];
      }
    }
  }

  /** Moving the colour back restores the palette. */
  lemma {:induction false} MoveRoundTrip(palette: seq<ColorSwatch>, from: int, to: int)
    requires 0 <= from < |palette| && 0 <= to < |palette|
    ensures Move(Move(palette, from, to), to, from) == palette
  {
    var q := Move(palette, from, to);
    var r := Move(q, to, from);
    forall l | 0 <= l < |palette|
      ensures r[l] == palette[l]
    {
      MoveTracksIndex(palette, from, to, l);
      MoveTracksIndex(q, to, from, MovedIndex(l, from, to));
      MovedIndexInverse(l, from, to);
    }
  }

  /** The lock list remapped position by position, before sorting. */
  function MoveLocks(locks: seq<int>, from: int, to: int): (r: seq<int>)
    ensures |r| == |locks|
    ensures forall k :: 0 <= k < |r| ==> r[k] == MovedIndex(locks[k], from, to)
  {
    seq(|locks|, k requires 0 <= k < |locks| => MovedIndex(locks[k], from, to))
  }

  /** reorderPalette: the colour at `from` moves to `to`, and every lock follows its colour. */
  function Reorder(s: State, from: int, to: int): (r: State)
    requires 0 <= from < |s.currentPalette| && 0 <= to < |s.currentPalette|
    ensures from == to ==> r == s
    ensures from != to ==> RecordsEdit(s, r) && r.currentPalette == Move(s.currentPalette, from, to)
    ensures from != to ==> r.lockedIndices == SortAsc(MoveLocks(s.lockedIndices, from, to))
    ensures Sorted(r.lockedIndices) || from == to
    ensures r.viewMode == s.viewMode && r.layout == s.layout && r.status == s.status && r.error == s.error
  {
    if from == to then s
    else
      var palette := Move(s.currentPalette, from, to);
      s.(currentPalette := palette,
         lockedIndices := SortAsc(MoveLocks(s.lockedIndices, from, to)),
         past := s.past + [palette])
  }

  /**
   * After a reorder an index is locked exactly when the colour now there was locked before; so
   * every locked colour stays locked and nothing else becomes locked.
   */
  lemma {:induction false} ReorderKeepsLockedColours(s: State, from: int, to: int, x: int)
    requires 0 <= from < |s.currentPalette| && 0 <= to < |s.currentPalette| && from != to
    requires 0 <= x < |s.currentPalette|
    ensures var r := Reorder(s, from, to);
            var origin := MovedIndex(x, to, from);
            0 <= origin < |s.currentPalette| &&
            r.currentPalette[x] == s.currentPalette[origin] &&
            (x in r.lockedIndices <==> origin in s.lockedIndices)
  {
    var locks := s.lockedIndices;
    var moved := MoveLocks(locks, from, to);
    var origin := MovedIndex(x, to, from);
    MovedIndexInverse(x, to, from);
    MoveTracksIndex(s.currentPalette, from, to, origin);
    SortAscMembers(moved);
    if origin in locks {
      var k :| 0 <= k < |locks| && locks[k] == origin;
      assert moved[k] == x;
    }
    if x in moved {
      var k :| 0 <= k < |moved| && moved[k] == x;
      MovedIndexInverse(locks[k], from, to);
    }
  }

  /** A reorder keeps every lock inside the palette when every lock was inside it. */
  lemma {:induction false} ReorderLocksInRange(s: State, from: int, to: int)
    requires 0 <= from < |s.currentPalette| && 0 <= to < |s.currentPalette|
    requires forall l :: l in s.lockedIndices ==> 0 <= l < |s.currentPalette|
    ensures forall l :: l in Reorder(s, from, to).lockedIndices ==> 0 <= l < |s.currentPalette|
  {
    if from != to {
      var moved := MoveLocks(s.lockedIndices, from, to);
      SortAscMembers(moved);
      forall l | l in Reorder(s, from, to).lockedIndices
        ensures 0 <= l < |s.currentPalette|
      {
        var k :| 0 <= k < |moved| && moved[k] == l;
        assert s.lockedIndices[k] in s.lockedIndices;
        MoveTracksIndex(s.currentPalette, from, to, s.lockedIndices[k]);
      }
    }
  }

  /** A lock beyond the palette's end, which a shrink can leave behind, passes through a reorder unchanged. */
  lemma {:induction false} ReorderKeepsOutOfRangeLocks(s: State, from: int, to: int, l: int)
    requires 0 <= from < |s.currentPalette| && 0 <= to < |s.currentPalette|
    requires l in s.lockedIndices && l >= |s.currentPalette|
    ensures l in Reorder(s, from, to).lockedIndices
  {
    if from != to {
      var moved := MoveLocks(s.lockedIndices, from, to);
      SortAscMembers(moved);
      var k :| 0 <= k < |s.lockedIndices| && s.lockedIndices[k] == l;
      assert moved[k] == l;
    }
  }

  lemma {:induction false} ReorderWellFormed(s: State, from: int, to: int)
    requires WellFormed(s)
    requires 0 <= from < |s.currentPalette| && 0 <= to < |s.currentPalette|
    ensures WellFormed(Reorder(s, from, to))
  {
    if from != to {
      var locks := s.lockedIndices;
      var moved := MoveLocks(locks, from, to);
      assert Distinct(moved) by {
        forall i, j | 0 <= i < j < |moved|
          ensures moved[i] != moved[j]
        {
          MovedIndexInverse(locks[i], from, to);
          MovedIndexInverse(locks[j], from, to);
        }
      }
      SortAscStrict(moved);
      SortAscMembers(moved);
      var sorted := SortAsc(moved);
      forall k | 0 <= k < |sorted|
        ensures sorted[k] >= 0
      {
        assert sorted[k] in moved;
        var m :| 0 <= m < |moved| && moved[m] == sorted[k];
        MovedIndexInverse(locks[m], from, to);
      }
    }
  }

  // ---------------------------------------------------------------- setPaletteSize

  /** An entry of the truncated palette: a locked swatch, or the empty placeholder `{}`. */
  datatype Slot = Kept(swatch: ColorSwatch) | Placeholder

  /** `!color.value`: the placeholder, or a kept swatch with an empty value. */
  predicate IsHole(slot: Slot) {
    slot.Placeholder? || slot.swatch.value == ""
  }

  /** `color.value`: undefined for the placeholder. */
  function SlotValue(slot: Slot): Option<string> {
    if slot.Kept? then Some(slot.swatch.value) else None
  }

  function Min(a: int, b: int): int {
    if a < b then a else b
  }

  function Max(a: int, b: int): int {
    if a > b then a else b
  }

  /**
   * The palette cut to max(newSize, number of locks) entries (or fewer, if it is shorter), with
   * every unlocked entry replaced by the placeholder.
   */
  function ShrinkSlots(palette: seq<ColorSwatch>, locks: seq<int>, newSize: int): (slots: seq<Slot>)
    ensures |slots| == Min(|palette|, Max(newSize, |locks|))
    ensures forall i :: 0 <= i < |slots| ==> slots[i] == if i in locks then Kept(palette[i]) else Placeholder
  {
    var n := Min(|palette|, Max(newSize, |locks|));
    seq(n, i requires 0 <= i < n => if i in locks then Kept(palette[i]) else Placeholder)
  }

  /** The holes, in order. */
  function Holes(slots: seq<Slot>): (h: seq<Slot>)
    ensures |h| <= |slots|
    ensures forall k :: 0 <= k < |h| ==> IsHole(h[k])
    ensures |h| == 0 <==> forall i :: 0 <= i < |slots| ==> !IsHole(slots[i])
  {
    if slots == [] then []
    else if IsHole(slots[0]) then [slots[0]] + Holes(slots[1..])
    else
      assert forall i :: 1 <= i < |slots| ==> slots[i] == slots[1..][i - 1];
      Holes(slots[1..])
  }

  /** Each hole takes the next new swatch (`newPalette.shift()`); every other slot keeps its swatch. */
  function FillHoles(slots: seq<Slot>, newColors: seq<ColorSwatch>): (r: seq<ColorSwatch>)
    requires |newColors| == |Holes(slots)|
    ensures |r| == |slots|
  {
    if slots == [] then []
    else if IsHole(slots[0]) then [newColors[0]] + FillHoles(slots[1..], newColors[1..])
    else [slots[0].swatch] + FillHoles(slots[1..], newColors)
  }

  /** Filling keeps every kept swatch in place and hands out the new swatches in order. */
  lemma {:induction false} FillHolesPlaces(slots: seq<Slot>, newColors: seq<ColorSwatch>, i: int)
    requires |newColors| == |Holes(slots)| && 0 <= i < |slots|
    ensures !IsHole(slots[i]) ==> FillHoles(slots, newColors)[i] == slots[i].swatch
    ensures IsHole(slots[i]) ==> |Holes(slots[..i])| < |newColors| && FillHoles(slots, newColors)[i] == newColors[|Holes(slots[..i])|]
  {
    if i > 0 {
      assert slots[1..][..i - 1] == slots[1..i];
      assert slots[..i] == [slots[0]] + slots[1..i];
      assert slots[..i][1..] == slots[1..i];
      if IsHole(slots[0]) {
        FillHolesPlaces(slots[1..], newColors[1..], i - 1);
      } else {
        FillHolesPlaces(slots[1..], newColors, i - 1);
      }
    } else {
      assert slots[..0] == [];
    }
  }

  /** The options for the colours that fill the holes: one per hole, seeded by the first and last hole. */
  function FillOptions(holes: seq<Slot>): Color.GeneratePaletteOptions
    requires |holes| > 0
  {
    Color.GeneratePaletteOptions(|holes|, [], None, SlotValue(holes[0]), SlotValue(holes[|holes| - 1]), None)
  }

  /** The options for the colours added when the palette grows: seeded by the first colour. */
  function GrowOptions(palette: seq<ColorSwatch>, newSize: int): Color.GeneratePaletteOptions
    requires |palette| > 0
  {
    Color.GeneratePaletteOptions(newSize - |palette|, [], None, Some(palette[0].value), None, None)
  }

  predicate SizeInRange(newSize: int) {
    MinPaletteSize <= newSize <= MaxPaletteSize
  }

  /**
   * setPaletteSize. None means the reducer throws: growing an empty palette reads the first
   * colour of nothing. A size outside [3, 10] changes nothing; every other size records the edit
   * and leaves the locks alone.
   */
  function SetPaletteSize(ops: Ops, s: State, newSize: int, rnd: Color.Random): (r: Option<State>)
    ensures !SizeInRange(newSize) ==> r == Some(s)
    ensures r.None? <==> SizeInRange(newSize) && newSize > |s.currentPalette| == 0
    ensures r.Some? && SizeInRange(newSize) ==> RecordsEdit(s, r.value) && r.value.lockedIndices == s.lockedIndices
    ensures r.Some? ==> r.value == s.(currentPalette := r.value.currentPalette, past := r.value.past)
  {
    if !SizeInRange(newSize) then Some(s)
    else
      var current := s.currentPalette;
      if newSize > |current| then
        if |current| == 0 then None
        else
          var palette := current + Color.Palette(ops, GrowOptions(current, newSize), rnd);
          Some(s.(currentPalette := palette, past := s.past + [palette]))
      else if newSize < |current| then
        var slots := ShrinkSlots(current, s.lockedIndices, newSize);
        var holes := Holes(slots);
        if |holes| > 0 then
          var palette := FillHoles(slots, Color.Palette(ops, FillOptions(holes), rnd));
          Some(s.(currentPalette := palette, past := s.past + [palette]))
        else Some(s.(past := s.past + [current]))
      else Some(s.(past := s.past + [current]))
  }

  /** Growing keeps every colour and appends new ones up to exactly the new size. */
  lemma GrowKeepsColours(ops: Ops, s: State, newSize: int, rnd: Color.Random)
    requires SizeInRange(newSize) && 0 < |s.currentPalette| < newSize
    ensures var r := SetPaletteSize(ops, s, newSize, rnd).value;
            |r.currentPalette| == newSize && r.currentPalette[..|s.currentPalette|] == s.currentPalette
  {
  }

  /**
   * Shrinking keeps the palette up to max(newSize, number of locks) entries when some entry there
   * is unlocked, and keeps every locked colour there at its index.
   */
  lemma {:induction false} ShrinkKeepsLockedColours(ops: Ops, s: State, newSize: int, rnd: Color.Random, i: int)
    requires SizeInRange(newSize) && newSize < |s.currentPalette|
    requires i in s.lockedIndices && 0 <= i < Min(|s.currentPalette|, Max(newSize, |s.lockedIndices|))
    requires s.currentPalette[i].value != ""
    ensures var r := SetPaletteSize(ops, s, newSize, rnd).value;
            i < |r.currentPalette| && r.currentPalette[i] == s.currentPalette[i]
  {
    var slots := ShrinkSlots(s.currentPalette, s.lockedIndices, newSize);
    var holes := Holes(slots);
    if |holes| > 0 {
      FillHolesPlaces(slots, Color.Palette(ops, FillOptions(holes), rnd), i);
    }
  }

  /**
   * With an unlocked colour below max(new size, number of locks), the palette ends up with
   * min(length, max(new size, number of locks)) colours: exactly the new size when the locks fit.
   */
  lemma ShrinkReachesSize(ops: Ops, s: State, newSize: int, rnd: Color.Random, j: int)
    requires SizeInRange(newSize) && newSize < |s.currentPalette|
    requires 0 <= j < Min(|s.currentPalette|, Max(newSize, |s.lockedIndices|)) && j !in s.lockedIndices
    ensures |SetPaletteSize(ops, s, newSize, rnd).value.currentPalette| ==
              Min(|s.currentPalette|, Max(newSize, |s.lockedIndices|))
  {
    var slots := ShrinkSlots(s.currentPalette, s.lockedIndices, newSize);
    assert IsHole(slots[j]);
  }

  /**
   * When every entry up to the new size is locked and non-empty there is no hole to fill, and the
   * palette keeps all its colours: it does not shrink.
   */
  lemma ShrinkAllLockedKeepsPalette(ops: Ops, s: State, newSize: int, rnd: Color.Random)
    requires SizeInRange(newSize) && newSize < |s.currentPalette|
    requires forall i :: 0 <= i < Min(|s.currentPalette|, Max(newSize, |s.lockedIndices|)) ==>
               i in s.lockedIndices && s.currentPalette[i].value != ""
    ensures SetPaletteSize(ops, s, newSize, rnd).value.currentPalette == s.currentPalette
  {
    var slots := ShrinkSlots(s.currentPalette, s.lockedIndices, newSize);
    assert forall i :: 0 <= i < |slots| ==> !IsHole(slots[i]);
  }

  // ---------------------------------------------------------------- generateNewPalette

  /** The thunk's options: the current size (5 for an empty palette), the locks and the current palette. */
  function ThunkOptions(s: State): Color.GeneratePaletteOptions {
    Color.GeneratePaletteOptions(
      if |s.currentPalette| == 0 then DefaultPaletteSize else |s.currentPalette|,
      s.lockedIndices, Some(s.currentPalette), None, None, None)
  }

  /** The thunk's payload. */
  function GeneratedPalette(ops: Ops, s: State, rnd: Color.Random): (p: seq<ColorSwatch>)
    ensures |p| == if |s.currentPalette| == 0 then DefaultPaletteSize else |s.currentPalette|
  {
    Color.Palette(ops, ThunkOptions(s), rnd)
  }

  /**
   * The payload keeps every locked swatch; and, since the thunk names no palette type and so runs
   * the custom generator on the current colours, every other position keeps its colour, scored
   * afresh.
   */
  lemma {:induction false} GeneratedKeepsColours(ops: Ops, s: State, rnd: Color.Random, i: int)
    requires 0 <= i < |s.currentPalette|
    ensures i in s.lockedIndices ==> GeneratedPalette(ops, s, rnd)[i] == s.currentPalette[i]
    ensures s.currentPalette[i].value != "" ==> GeneratedPalette(ops, s, rnd)[i].value == s.currentPalette[i].value
  {
    var opts := ThunkOptions(s);
    assert Color.SelectedType(opts) == Custom;
    if i in s.lockedIndices {
      assert Color.KeepsLocked(opts, i);
      assert Color.Palette(ops, opts, rnd)[i] == s.currentPalette[i];
    }
    if s.currentPalette[i].value != "" {
      Color.CustomKeepsCurrentValues(ops, opts, rnd, i);
    }
  }

  function Pending(s: State): (r: State)
    ensures r == s.(status := Some(Loading))
  {
    s.(status := Some(Loading))
  }

  /** generateNewPalette.fulfilled: records the palette before the change and clears the future. */
  function Fulfilled(s: State, payload: seq<ColorSwatch>): (r: State)
    ensures r.past == s.past + [s.currentPalette] && r.currentPalette == payload && r.future == []
    ensures r.lockedIndices == s.lockedIndices && r.status == Some(Idle)
    ensures r.viewMode == s.viewMode && r.layout == s.layout && r.error == s.error
  {
    s.(status := Some(Idle), past := s.past + [s.currentPalette], currentPalette := payload, future := [])
  }

  /** generateNewPalette.rejected: the error's message, or a fixed text when it has none. */
  function Rejected(s: State, message: Option<string>): (r: State)
    ensures r.status == Some(Failed) && r.error.Some? && r.error.value != ""
    ensures message.Some? && message.value != "" ==> r.error == message
    ensures r == s.(status := r.status, error := r.error)
  {
    s.(status := Some(Failed), error := Some(if message.Some? && message.value != "" then message.value else "Failed to generate palette"))
  }

  /** Unlike the synchronous edits, undo right after a generated palette brings the previous one back. */
  lemma UndoAfterGenerate(s: State, payload: seq<ColorSwatch>)
    ensures Undo(Fulfilled(s, payload)).currentPalette == s.currentPalette
    ensures Undo(Fulfilled(s, payload)).past == s.past
    ensures Undo(Fulfilled(s, payload)).future == [payload]
    ensures Redo(Undo(Fulfilled(s, payload))) == Fulfilled(s, payload)
  {
    UndoRedo(Fulfilled(s, payload));
  }
}
