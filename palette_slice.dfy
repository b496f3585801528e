/**
 * The palette slice as the store runs it: one mutable state object whose reducers update its
 * fields in place. Each reducer method is proved to leave exactly the state that the matching
 * function of PaletteReducers computes from the state before it, and to keep the lock list well
 * formed; the loops the reducers run (findIndex, map, filter, sort, the hole filling) are
 * methods of their own, each proved against its specification function.
 */
module PaletteSlice {
  import opened Wrappers
  import opened Chroma
  import opened PaletteState
  import opened Indices
  import Color
  import PaletteReducers

  // ---------------------------------------------------------------- the loops

  /** `findIndex((swatch) => swatch.value === value)`. */
  method FindSwatch(palette: seq<ColorSwatch>, value: string) returns (index: int)
    ensures index == PaletteReducers.FindIndex(palette, value)
  {
    var i := 0;
    while i < |palette|
      invariant 0 <= i <= |palette|
      invariant forall k :: 0 <= k < i ==> palette[k].value != value
    {
      if palette[i].value == value {
        return i;
      }
      i := i + 1;
    }
    return -1;
  }

  /** `filter((i) => i !== x)`. */
  method FilterOut(locks: seq<int>, x: int) returns (r: seq<int>)
    ensures r == Without(locks, x)
  {
    r := [];
    var i := 0;
    while i < |locks|
      invariant 0 <= i <= |locks|
      invariant r + Without(locks[i..], x) == Without(locks, x)
    {
      assert locks[i..][1..] == locks[i + 1..];
      if locks[i] != x {
        r := r + [locks[i]];
      }
      i := i + 1;
    }
  }

  /** `sort((a, b) => a - b)` on a lock list, as an insertion of each index in turn. */
  method SortLocks(locks: seq<int>) returns (r: seq<int>)
    ensures r == SortAsc(locks)
    ensures Sorted(r) && multiset(r) == multiset(locks)
  {
    r := [];
    var i := 0;
    while i < |locks|
      invariant 0 <= i <= |locks|
      invariant r == SortAsc(locks[..i])
    {
      assert locks[..i + 1][..i] == locks[..i];
      r := Insert(locks[i], r);
      i := i + 1;
    }
    assert locks[..i] == locks;
  }

  /** The `map` of deleteColor: every lock above the deleted index moves down by one. */
  method ShiftLocksDown(locks: seq<int>, deleted: int) returns (r: seq<int>)
    ensures r == PaletteReducers.ShiftDown(locks, deleted)
  {
    r := [];
    var i := 0;
    while i < |locks|
      invariant 0 <= i <= |locks|
      invariant r == PaletteReducers.ShiftDown(locks, deleted)[..i]
    {
      r := r + [if locks[i] > deleted then locks[i] - 1 else locks[i]];
      i := i + 1;
    }
  }

  /** The `forEach` of reorderPalette: each lock follows its colour to the new position. */
  method RemapLocks(locks: seq<int>, from: int, to: int) returns (r: seq<int>)
    ensures r == PaletteReducers.MoveLocks(locks, from, to)
  {
    r := [];
    var i := 0;
    while i < |locks|
      invariant 0 <= i <= |locks|
      invariant r == PaletteReducers.MoveLocks(locks, from, to)[..i]
    {
      var oldLockedIndex := locks[i];
      if oldLockedIndex == from {
        r := r + [to];
      } else if from < to {
        if oldLockedIndex > from && oldLockedIndex <= to {
          r := r + [oldLockedIndex - 1];
        } else {
          r := r + [oldLockedIndex];
        }
      } else {
        if oldLockedIndex >= to && oldLockedIndex < from {
          r := r + [oldLockedIndex + 1];
        } else {
          r := r + [oldLockedIndex];
        }
      }
      i := i + 1;
    }
  }

  /** The `slice(0, …).map(…)` of setPaletteSize: locked entries kept, the others emptied. */
  method TruncateKeepingLocks(palette: seq<ColorSwatch>, locks: seq<int>, newSize: int)
    returns (slots: seq<PaletteReducers.Slot>)
    ensures slots == PaletteReducers.ShrinkSlots(palette, locks, newSize)
  {
    var end := if newSize > |locks| then newSize else |locks|;
    if end > |palette| {
      end := |palette|;
    }
    slots := [];
    var index := 0;
    while index < end
      invariant 0 <= index <= end
      invariant |slots| == index
      invariant forall k :: 0 <= k < index ==>
                  slots[k] == if k in locks then PaletteReducers.Kept(palette[k]) else PaletteReducers.Placeholder
    {
      slots := slots + [if index in locks then PaletteReducers.Kept(palette[index]) else PaletteReducers.Placeholder];
      index := index + 1;
    }
  }

  /** `filter((color) => !color.value)`: the holes, in order. */
  method CollectHoles(slots: seq<PaletteReducers.Slot>) returns (holes: seq<PaletteReducers.Slot>)
    ensures holes == PaletteReducers.Holes(slots)
  {
    holes := [];
    var i := 0;
    while i < |slots|
      invariant 0 <= i <= |slots|
      invariant holes + PaletteReducers.Holes(slots[i..]) == PaletteReducers.Holes(slots)
    {
      assert slots[i..][1..] == slots[i + 1..];
      if PaletteReducers.IsHole(slots[i]) {
        holes := holes + [slots[i]];
      }
      i := i + 1;
    }
  }

  /** The second `map` of setPaletteSize: each hole takes `newColors.shift()`. */
  method FillHolesInOrder(slots: seq<PaletteReducers.Slot>, newColors: seq<ColorSwatch>)
    returns (palette: seq<ColorSwatch>)
    requires |newColors| == |PaletteReducers.Holes(slots)|
    ensures palette == PaletteReducers.FillHoles(slots, newColors)
  {
    var queue := newColors;
    palette := [];
    var i := 0;
    while i < |slots|
      invariant 0 <= i <= |slots|
      invariant |queue| == |PaletteReducers.Holes(slots[i..])|
      invariant palette + PaletteReducers.FillHoles(slots[i..], queue) == PaletteReducers.FillHoles(slots, newColors)
    {
      var rest := slots[i..];
      assert rest[1..] == slots[i + 1..];
      if PaletteReducers.IsHole(slots[i]) {
        assert PaletteReducers.Holes(rest) == [rest[0]] + PaletteReducers.Holes(slots[i + 1..]);
        assert PaletteReducers.FillHoles(rest, queue) == [queue[0]] + PaletteReducers.FillHoles(slots[i + 1..], queue[1..]);
        palette := palette + [queue[0]];
        queue := queue[1..];
      } else {
        assert PaletteReducers.Holes(rest) == PaletteReducers.Holes(slots[i + 1..]);
        assert PaletteReducers.FillHoles(rest, queue) == [rest[0].swatch] + PaletteReducers.FillHoles(slots[i + 1..], queue);
        palette := palette + [slots[i].swatch];
      }
      i := i + 1;
    }
  }

  /** The generateNewPalette thunk's body, reading the state it is given. */
  method GenerateNewPalette(ops: Ops, s: State, rnd: Color.Random) returns (palette: seq<ColorSwatch>)
    ensures palette == PaletteReducers.GeneratedPalette(ops, s, rnd)
  {
    var paletteSize := if |s.currentPalette| > 0 then |s.currentPalette| else DefaultPaletteSize;
    palette := Color.GeneratePalette(ops, Color.GeneratePaletteOptions(
      paletteSize, s.lockedIndices, Some(s.currentPalette), None, None, None), rnd);
  }

  // ---------------------------------------------------------------- the slice

  class Slice {
    var viewMode: PaletteViewMode
    var currentPalette: seq<ColorSwatch>
    var lockedIndices: seq<int>
    var layout: PaletteLayout
    var status: Option<PaletteStatus>
    var error: Option<string>
    var past: seq<seq<ColorSwatch>>
    var future: seq<seq<ColorSwatch>>

    /** The state the fields hold. */
    function Snapshot(): State
      reads this
    {
      State(viewMode, currentPalette, lockedIndices, layout, status, error, past, future)
    }

    constructor ()
      ensures Snapshot() == InitialState
      ensures PaletteReducers.WellFormed(Snapshot())
    {
      viewMode := Full;
      currentPalette := [];
      lockedIndices := [];
      layout := Vertical;
      status := None;
      error := None;
      past := [];
      future := [];
    }

    method ToggleViewMode()
      modifies this
      ensures Snapshot() == PaletteReducers.ToggleViewMode(old(Snapshot()))
    {
      viewMode := if viewMode == Compact then Full else Compact;
    }

    method ToggleLayout()
      modifies this
      ensures Snapshot() == PaletteReducers.ToggleLayout(old(Snapshot()))
    {
      layout := if layout == Horizontal then Vertical else Horizontal;
    }

    method Undo()
      modifies this
      ensures Snapshot() == PaletteReducers.Undo(old(Snapshot()))
    {
      if |past| > 0 {
        var previous := past[|past| - 1];
        future := [currentPalette] + future;
        currentPalette := previous;
        past := past[..|past| - 1];
      }
    }

    method Redo()
      modifies this
      ensures Snapshot() == PaletteReducers.Redo(old(Snapshot()))
    {
      if |future| > 0 {
        var next := future[0];
        past := past + [currentPalette];
        currentPalette := next;
        future := future[1..];
      }
    }

    method SetPalette(palette: seq<ColorSwatch>)
      modifies this
      ensures Snapshot() == PaletteReducers.SetPalette(old(Snapshot()), palette)
    {
      currentPalette := palette;
      past := past + [currentPalette];
    }

    method ToggleLock(id: string)
      modifies this
      ensures Snapshot() == PaletteReducers.ToggleLock(old(Snapshot()), id)
      ensures old(PaletteReducers.WellFormed(Snapshot())) ==> PaletteReducers.WellFormed(Snapshot())
    {
      if PaletteReducers.WellFormed(Snapshot()) {
        PaletteReducers.ToggleLockTwice(Snapshot(), id);
      }
      var index := FindSwatch(currentPalette, id);
      if index == -1 {
        return;
      }
      if index in lockedIndices {
        lockedIndices := FilterOut(lockedIndices, index);
      } else {
        lockedIndices := SortLocks(lockedIndices + [index]);
      }
      past := past + [currentPalette];
    }

    method DeleteColor(id: string)
      modifies this
      ensures Snapshot() == PaletteReducers.DeleteColor(old(Snapshot()), id)
      ensures old(PaletteReducers.WellFormed(Snapshot())) ==> PaletteReducers.WellFormed(Snapshot())
    {
      if PaletteReducers.WellFormed(Snapshot()) {
        PaletteReducers.DeleteColorWellFormed(Snapshot(), id);
      }
      var indexToDelete := FindSwatch(currentPalette, id);
      if indexToDelete == -1 {
        return;
      }
      if |currentPalette| > MinPaletteSize {
        currentPalette := currentPalette[..indexToDelete] + currentPalette[indexToDelete + 1..];
        var shifted := ShiftLocksDown(lockedIndices, indexToDelete);
        lockedIndices := FilterOut(shifted, indexToDelete);
      }
      past := past + [currentPalette];
    }

    /** Both indices are positions of the palette: the page computes them with findIndex and drops -1. */
    method ReorderPalette(oldIndex: int, newIndex: int)
      requires 0 <= oldIndex < |currentPalette| && 0 <= newIndex < |currentPalette|
      modifies this
      ensures Snapshot() == PaletteReducers.Reorder(old(Snapshot()), oldIndex, newIndex)
      ensures old(PaletteReducers.WellFormed(Snapshot())) ==> PaletteReducers.WellFormed(Snapshot())
    {
      if PaletteReducers.WellFormed(Snapshot()) {
        PaletteReducers.ReorderWellFormed(Snapshot(), oldIndex, newIndex);
      }
      if oldIndex == newIndex {
        return;
      }
      var movedItem := currentPalette[oldIndex];
      var palette := currentPalette[..oldIndex] + currentPalette[oldIndex + 1..];
      palette := palette[..newIndex] + [movedItem] + palette[newIndex..];
      currentPalette := palette;
      var newLockedIndices := RemapLocks(lockedIndices, oldIndex, newIndex);
      lockedIndices := SortLocks(newLockedIndices);
      past := past + [currentPalette];
    }

    /**
     * setPaletteSize. `thrown` reports the exception of growing an empty palette; the state is
     * then left as it was.
     */
    method SetPaletteSize(ops: Ops, newSize: int, rnd: Color.Random) returns (thrown: bool)
      modifies this
      ensures thrown <==> PaletteReducers.SetPaletteSize(ops, old(Snapshot()), newSize, rnd).None?
      ensures thrown ==> Snapshot() == old(Snapshot())
      ensures !thrown ==> Snapshot() == PaletteReducers.SetPaletteSize(ops, old(Snapshot()), newSize, rnd).value
      ensures PaletteReducers.WellFormed(Snapshot()) == old(PaletteReducers.WellFormed(Snapshot()))
    {
      thrown := false;
      if newSize < MinPaletteSize || newSize > MaxPaletteSize {
        return;
      }
      var currentSize := |currentPalette|;
      if newSize > currentSize {
        if currentSize == 0 {
          thrown := true;
          return;
        }
        var newColors := Color.GeneratePalette(ops, PaletteReducers.GrowOptions(currentPalette, newSize), rnd);
        currentPalette := currentPalette + newColors;
      } else if newSize < currentSize {
        var preservedIndices := lockedIndices;
        var lockedPalette := TruncateKeepingLocks(currentPalette, preservedIndices, newSize);
        var holes := CollectHoles(lockedPalette);
        if |holes| > 0 {
          var newPalette := Color.GeneratePalette(ops, PaletteReducers.FillOptions(holes), rnd);
          currentPalette := FillHolesInOrder(lockedPalette, newPalette);
        }
        lockedIndices := preservedIndices;
      }
      past := past + [currentPalette];
    }

    method GenerateNewPalettePending()
      modifies this
      ensures Snapshot() == PaletteReducers.Pending(old(Snapshot()))
    {
      status := Some(Loading);
    }

    method GenerateNewPaletteFulfilled(payload: seq<ColorSwatch>)
      modifies this
      ensures Snapshot() == PaletteReducers.Fulfilled(old(Snapshot()), payload)
    {
      status := Some(Idle);
      past := past + [currentPalette];
      currentPalette := payload;
      future := [];
    }

    method GenerateNewPaletteRejected(message: Option<string>)
      modifies this
      ensures Snapshot() == PaletteReducers.Rejected(old(Snapshot()), message)
    {
      status := Some(Failed);
      error := Some(if message.Some? && message.value != "" then message.value else "Failed to generate palette");
    }

    /**
     * Dispatching the thunk: pending, then the payload computed from the state at that point,
     * then fulfilled. Undo afterwards restores the palette from before the dispatch.
     */
    method DispatchGenerateNewPalette(ops: Ops, rnd: Color.Random)
      modifies this
      ensures Snapshot() == PaletteReducers.Fulfilled(
                PaletteReducers.Pending(old(Snapshot())),
                PaletteReducers.GeneratedPalette(ops, old(Snapshot()), rnd))
      ensures PaletteReducers.Undo(Snapshot()).currentPalette == old(currentPalette)
    {
      GenerateNewPalettePending();
      var payload := GenerateNewPalette(ops, Snapshot(), rnd);
      GenerateNewPaletteFulfilled(payload);
      PaletteReducers.UndoAfterGenerate(PaletteReducers.Pending(old(Snapshot())), payload);
    }
  }
}
