# Palette engine — a Dafny model

This project models the colour-palette engine of a palette generator web application. It covers:

- **Swatch scoring** (`Color.Swatch`, `Color.GenerateColorSwatch`). A colour's text colour (white or black) is whichever contrasts more. Its WCAG grade is AAA from 7:1, AA from 4.5:1 and Fail below that. Its simulated look is computed under nine colour-vision deficiencies.
- **The harmony generators** (`Color.Generate`). Seventeen palette types, dispatched by name, with `custom` as the default and the fallback.
- **`generatePalette`** (`Color.GeneratePalette`). It forces the generator's output to the requested length. It then keeps the current swatch at every locked position and scores every other colour.
- **The colour-vision-deficiency simulator** (`Vision`). Nine fixed 3×3 matrices are applied to an RGB triple, then each channel is rounded and clamped to 0–255.
- **The palette store's data model** (`PaletteState`) and its **reducers** (`PaletteReducers`). The reducers are written as functions from the old state to the new one. The store itself is `PaletteSlice.Slice`, a class whose methods update its fields in place. Each method is proved to leave exactly the state the matching reducer function computes, and to keep the lock list strictly increasing.
- **The `generateNewPalette` thunk** (`PaletteReducers.GeneratedPalette`, `PaletteSlice.Slice.DispatchGenerateNewPalette`) and its pending, fulfilled and rejected cases.
- **`PeriodicTaskRunner`** (`PeriodicTasks`). The runner repeats a job (its `task` callback) on a chain of timeouts. The host's timer queue and the job's settling are explicit state and explicit events.
- **`Observable`** (`Observables`). A list of observer callbacks.
- **The home page's palette preview builders** (`PalettePreview`).

chroma-js is foreign, floating-point colour science. It appears as `Chroma.Ops`, a record of total functions. `Chroma.Valid` states the only facts the engine relies on:

- parsed channels are in 0–255;
- contrast is in [1, 21];
- hues are in [0, 360);
- an LCH scale asked for n colours returns n.

`chroma.random()` appears as `Color.Random`, which holds one stream of drawn colours per call site.

Behaviour of the code that the model keeps as written:

- **Edits record the new palette, not the old one.** `setPalette`, `toggleLock`, `deleteColor`, `reorderPalette` and `setPaletteSize` append the palette as it is after the edit to `past`. None of them clears `future`. So an undo straight after such an edit leaves the palette unchanged (`PaletteReducers.UndoAfterEdit`). Only `generateNewPalette.fulfilled` records the previous palette and clears the future (`PaletteReducers.UndoAfterGenerate`).
- **Deletion drops the next colour's lock.** `deleteColor` first shifts every lock above the deleted index down by one, then filters out the deleted index. The lock of the colour right after the deleted one is therefore lost (`PaletteReducers.DeleteDropsNextLock`). For locks {0, 2} and deleting index 1, the code gives {0}. The model follows the code; "## Findings" records the intended adjustment, which gives {0, 1}.
- **A blocked delete still records an edit.** `deleteColor` on a palette of three colours or fewer changes no colour, but still appends to `past`.
- **Shrinking can fail to shrink.** When every entry below min(length, max(new size, number of locks)) is locked and non-empty, there is no hole to fill (a locked entry whose value is empty is still a hole). The palette then keeps all its colours and does not shrink (`PaletteReducers.ShrinkAllLockedKeepsPalette`). So a requested size in [3, 10] does not by itself bound the palette's length. Conversely, a shrink keeps the lock list as it is, so locks beyond the new end can remain; a later reorder passes them through unchanged (`PaletteReducers.ReorderKeepsOutOfRangeLocks`).
- **Growing an empty palette throws.** `setPaletteSize` reads `currentPalette[0].value` when growing an empty palette, which throws. The model returns `None` for this case (`PaletteReducers.SetPaletteSize`), and the class method reports it as `thrown`.

## Model

| member | source | states |
|---|---|---|
| Vision.ParseDeficiency | src/lib/utils/vision.ts:134-139 | The matrix lookup by name: a found deficiency carries exactly that name; None means no deficiency has that name |
| Vision.DeficiencyTypesComplete | src/lib/utils/vision.ts:4-24 | VISION_DEFICIENCY_TYPES lists all nine deficiencies, with distinct names, and every name looks its deficiency up again |
| Vision.MatrixTableShape | src/lib/utils/vision.ts:28-83 | Every matrix row sums to 1, except achromatomaly's third row (0.999); achromatopsia and monochromacy share the luminance matrix |
| Vision.Round | src/lib/utils/vision.ts:113-115 | Math.round: the result is within half a unit of x, halves rounding up |
| Vision.Clamp255 | src/lib/utils/vision.ts:113-115 | The clamp lands in [0, 255] and leaves in-range values alone |
| Vision.Channel | src/lib/utils/vision.ts:96-115 | Normalising by 255, weighting and scaling back by 255 equals weighting the raw channels; the result is that value rounded and clamped |
| Vision.ApplyDeficiencyMatrix | src/lib/utils/vision.ts:92-116 | Every output channel is an integer in [0, 255], equal to the matching row applied to the input channels, rounded and clamped |
| Vision.AchromaticOutputIsGrey | src/lib/utils/vision.ts:47-52 | Under achromatopsia (and monochromacy, the same matrix) every colour becomes a grey with R = G = B |
| Vision.GreyChannel | src/lib/utils/vision.ts:100-115 | A grey level v maps through one row to v times the row's sum, rounded and clamped |
| Vision.GreyIsFixed | src/lib/utils/vision.ts:92-116 | Every grey (v, v, v) maps to itself under every deficiency, achromatomaly's 0.999 row included |
| Vision.BlackIsFixed | src/lib/utils/vision.ts:92-116 | Black stays black under every deficiency |
| Vision.SimulateColorBlindness | src/lib/utils/vision.ts:125-150 | An unparsable colour or an unknown deficiency gives the input back unchanged; otherwise the formatted transform of the parsed triple |
| Vision.GreySimulationIsGrey | src/lib/utils/vision.ts:125-150 | Simulating any deficiency on a grey that parses to (v, v, v) formats that same grey |
| PaletteState.ParsePaletteType | src/lib/typings/PaletteState.ts:7-24 | Lookup by name: a found type has that name; None means no palette type has that name |
| PaletteState.PaletteTypeNameRoundTrip | src/lib/typings/PaletteState.ts:7-24 | Every palette type's name looks that type up again |
| PaletteState.PaletteTypesClosed | src/lib/typings/PaletteState.ts:7-24 | Seventeen palette types, custom among them; distinct types have distinct names |
| PaletteState.AllPaletteTypesDistinct | src/lib/typings/PaletteState.ts:7-24 | The list of palette types names each type once |
| PaletteState.SizeBoundsOrdered | src/lib/typings/PaletteState.ts:25-27 | The size constants are 3, 5 and 10, and the default lies between the bounds |
| PaletteReducers.InitialStateWellFormed | src/lib/typings/PaletteState.ts:48-55 | The initial state has no colours, no locks and no history, and its (empty) lock list is well formed |
| Color.Or | src/lib/utils/color.ts:486 | `o \|\| fallback`: an absent or empty string selects the fallback; any other value is kept |
| Color.Mod360 | src/lib/utils/color.ts:102 | JavaScript's `% 360`: non-negative input lands in [0, 360), negative input in (-360, 0]; one turn is subtracted from [360, 720) |
| Color.Classify | src/lib/utils/color.ts:54-59 | AAA exactly when the contrast is at least 7, AA exactly when it is in [4.5, 7), Fail exactly below 4.5 |
| Color.ContrastBoundaries | src/lib/utils/color.ts:22-23 | The thresholds are hard cut-offs: 7 is AAA and just below is AA; 4.5 is AA and just below fails |
| Color.DeficiencyMap | src/lib/utils/color.ts:61-64 | The map has an entry for every deficiency, holding that deficiency's simulation of the colour |
| Color.Swatch | src/lib/utils/color.ts:44-73 | The value is kept verbatim; the text colour is the one of white and black with the larger contrast (white on a tie); the contrast is that larger one, in [1, 21]; the grade follows it; all nine deficiency entries are filled |
| Color.GenerateColorSwatch | src/lib/utils/color.ts:44-73 | The loop builds the scored swatch of the given colour, or of a random one when the colour is empty |
| Color.InvertRgb | src/lib/utils/color.ts:79 | 255 - v per channel keeps channels in [0, 255] |
| Color.InvertRgbInvolution | src/lib/utils/color.ts:79 | Inverting a triple twice gives it back |
| Color.InvertColor | src/lib/utils/color.ts:76-89 | An unparsable colour comes back unchanged; otherwise the formatted inverse of the parsed triple |
| Color.InvertColorTwice | src/lib/utils/color.ts:76-89 | When chroma's formatting round-trips, inverting twice gives back the colour in chroma's hex form |
| Color.ComplementaryHue | src/lib/utils/color.ts:102 | The complementary hue of a hue in [0, 360) is in [0, 360) |
| Color.ComplementaryHueInvolution | src/lib/utils/color.ts:102 | The complement of the complement is the hue itself, and the complement is exactly 180 degrees away |
| Color.ComplementaryLightness | src/lib/utils/color.ts:98-99 | The mirrored lightness 100 - l stays in [0, 100] |
| Color.ComplementaryLightnessInvolution | src/lib/utils/color.ts:98-99 | Mirroring the lightness twice gives it back |
| Color.GetComplementaryColor | src/lib/utils/color.ts:92-108 | An unparsable colour gives the random fallback; a colour with an LCH hue gets the opposite hue; one without a hue gets the mirrored lightness |
| Color.DistributeKeyColors | src/lib/utils/color.ts:111-124 | Nothing for n <= 0; n random colours without keys; the first n keys when there are enough; otherwise the n-colour scale; always exactly n colours (none for n <= 0) |
| Color.SpreadShiftBounds | src/lib/utils/color.ts:157 | The achromatic lightness shift stays within half the window either side of the seed, is symmetric, and starts at -15 |
| Color.Clamp100 | src/lib/utils/color.ts:161 | The clamp lands in [0, 100] and leaves in-range values alone |
| Color.HueOffsetKeyColors | src/lib/utils/color.ts:134-137 | One key colour per hue offset |
| Color.PaletteFromHueOffsets | src/lib/utils/color.ts:126-143 | The hue-offset generators return exactly n colours (none for n <= 0) |
| Color.NgonSides | src/lib/utils/color.ts:149 | A non-positive side count becomes 1, so there is always at least one side |
| Color.NgonStep | src/lib/utils/color.ts:165 | The polygon's hue step is positive and the steps add up to a full turn |
| Color.NgonKeyColors | src/lib/utils/color.ts:145-167 | One key colour per side |
| Color.NgonHuesDistinct | src/lib/utils/color.ts:165 | The polygon's corners request pairwise distinct hues in [0, 360), the first of them the seed's own hue |
| Color.GenerateNgonKeyColors | src/lib/utils/color.ts:145-167 | The loop pushes exactly the polygon's key colours, in order |
| Color.AnalogousStep | src/lib/utils/color.ts:182-183 | The 60-degree analogous window is split into n - 1 positive steps; a palette of one colour has step 0 |
| Color.AnalogousWindow | src/lib/utils/color.ts:194-195 | The analogous offsets run from -30 to +30 degrees around the seed, symmetrically |
| Color.AnalogousPalette | src/lib/utils/color.ts:173-200 | An analogous palette has exactly n colours (none for n <= 0) |
| Color.GenerateAnalogousPalette | src/lib/utils/color.ts:173-200 | The loop pushes exactly the analogous palette's colours, in order |
| Color.MonochromaticPalette | src/lib/utils/color.ts:202-261 | A monochromatic palette of one colour is the seed; it always has exactly n colours (none for n <= 0) |
| Color.ComplementaryPalette | src/lib/utils/color.ts:263-273 | A complementary palette of one colour is the seed; it always has exactly n colours |
| Color.SplitComplementaryKeys | src/lib/utils/color.ts:275-298 | Three key colours, the first of them the seed |
| Color.SplitComplementaryHues | src/lib/utils/color.ts:291-293 | The split-complementary hues lie exactly 30 degrees either side of the complement, wrapping at 360 |
| Color.SplitComplementaryPalette | src/lib/utils/color.ts:275-304 | A split-complementary palette has exactly n colours |
| Color.GenerateCirclePalette | src/lib/utils/color.ts:306-313 | A circle palette is the n-gon's key colours: exactly n of them (none for n <= 0) |
| Color.StarAlternates | src/lib/utils/color.ts:326-343 | A star palette alternates: odd steps take the complementary hue, even steps 2k move 20k degrees on; every hue is in [0, 360) |
| Color.StarPalette | src/lib/utils/color.ts:315-355 | A star palette has exactly n colours; its i-th colour is StarColor, covered by this row and StarAlternates |
| Color.GenerateStarPalette | src/lib/utils/color.ts:315-355 | The loop pushes exactly the star palette's colours, in order |
| Color.CustomPalette | src/lib/utils/color.ts:357-389 | A current palette at least n long is cut to n; a shorter one is kept as a prefix and extended to n; the result always has n colours; the i-th added colour is CustomExtraColor, covered by this row |
| Color.GradientPalette | src/lib/utils/color.ts:391-403 | A gradient palette has exactly n colours |
| Color.NgonPalette | src/lib/utils/color.ts:405-411 | The polygon generators return exactly n colours |
| Color.GenerateNgonPalette | src/lib/utils/color.ts:405-411 | The generator made by the polygon factory computes the polygon palette |
| Color.Generate | src/lib/utils/color.ts:414-460 | The paletteGenerators map: one generator per palette type, each returning paletteSize colours (none for a size <= 0) when chroma's scale returns what it is asked for |
| Color.GeneratorLength | src/lib/utils/color.ts:414-460 | Every one of the seventeen generators returns exactly paletteSize colours (none for a size <= 0) |
| Color.GeneratorAliases | src/lib/utils/color.ts:418-451 | Triangle is the same generator as triadic, rectangle the same as tetradic |
| Color.RunGenerator | src/lib/utils/color.ts:414-460 | Running the generator found for a type yields that type's palette, through the imperative loops where the source has them |
| Color.SelectedType | src/lib/utils/color.ts:481-503 | No palette type, or a name with no generator, selects custom; otherwise the type with that name (over names; see "## Left out" for untyped names) |
| Color.Values | src/lib/utils/color.ts:495 | The current palette's values, position by position |
| Color.Adjusted | src/lib/utils/color.ts:506-515 | The generator's output forced to n colours: kept as is when the length is right, otherwise position i keeps a non-empty colour and takes a random one elsewhere |
| Color.Merge | src/lib/utils/color.ts:517-528 | Every locked position that the current palette covers keeps its swatch; every other position is its colour scored (a random colour when empty) |
| Color.Palette | src/lib/utils/color.ts:472-530 | generatePalette returns exactly paletteSize swatches (none for a size <= 0) |
| Color.PaletteLocksAndScores | src/lib/utils/color.ts:506-528 | The padding never applies because every generator returns the right length; a locked, covered position keeps its swatch, and every other position is the generator's colour there, scored |
| Color.CustomKeepsCurrentValues | src/lib/utils/color.ts:357-366 | With the default custom type and a current palette at least as long as asked for, every position keeps its current colour value |
| Color.AdjustLength | src/lib/utils/color.ts:506-515 | The pad loop computes exactly the adjusted colours, and runs only when the length is wrong |
| Color.MergeLocked | src/lib/utils/color.ts:517-528 | The lock-merge loop computes exactly the merged palette |
| Color.GeneratePalette | src/lib/utils/color.ts:472-530 | generatePalette's steps (defaults, generator, pad, lock merge) compute exactly the specified palette |
| Indices.Count | src/lib/features/palette/paletteSlice.ts:115 | The number of occurrences agrees with the multiset count, and is positive exactly for members (`includes`) |
| Indices.Insert | src/lib/features/palette/paletteSlice.ts:118-119 | Insertion adds exactly one occurrence of x |
| Indices.InsertSorted | src/lib/features/palette/paletteSlice.ts:118-119 | Inserting into a sorted list keeps it sorted |
| Indices.SortAsc | src/lib/features/palette/paletteSlice.ts:119 | The numeric sort's result is sorted and a permutation of its input |
| Indices.SortedUnique | src/lib/features/palette/paletteSlice.ts:119 | Two sorted lists with the same elements are equal, so the sort's result is determined by its input |
| Indices.DistinctAtMostOnce | src/lib/features/palette/paletteSlice.ts:119 | In a list without repeats each value occurs at most once |
| Indices.AtMostOnceDistinct | src/lib/features/palette/paletteSlice.ts:119 | A list in which no value occurs twice has no repeats |
| Indices.RepeatTwice | src/lib/features/palette/paletteSlice.ts:119 | A value at two positions occurs at least twice |
| Indices.SortAscStrict | src/lib/features/palette/paletteSlice.ts:191 | Sorting a list without repeats gives a strictly increasing list |
| Indices.SortAscMembers | src/lib/features/palette/paletteSlice.ts:191 | Sorting keeps exactly the same members |
| Indices.Without | src/lib/features/palette/paletteSlice.ts:116 | The filter keeps only elements of the list that differ from x |
| Indices.WithoutCounts | src/lib/features/palette/paletteSlice.ts:116 | The filter removes every occurrence of x and keeps every other element as often as before |
| Indices.WithoutMembers | src/lib/features/palette/paletteSlice.ts:116 | The filter's members are exactly the list's members other than x |
| Indices.WithoutSorted | src/lib/features/palette/paletteSlice.ts:116 | The filter keeps a sorted list sorted |
| Indices.Toggle | src/lib/features/palette/paletteSlice.ts:115-120 | Toggling removes every occurrence of a present index and adds an absent one; a sorted list stays sorted |
| Indices.ToggleTwice | src/lib/features/palette/paletteSlice.ts:115-120 | On a strictly increasing list, toggling keeps it strictly increasing, and toggling the same index twice restores it |
| Indices.ToggleTwiceLocked | src/lib/features/palette/paletteSlice.ts:115-120 | Removing an index that occurs once and adding it back restores the elements |
| Indices.ToggleTwiceUnlocked | src/lib/features/palette/paletteSlice.ts:115-120 | Adding an absent index and removing it again restores the elements |
| Indices.ToggleKeepsStrict | src/lib/features/palette/paletteSlice.ts:115-120 | Toggling keeps a strictly increasing list strictly increasing |
| PaletteReducers.ToggleViewMode | src/lib/features/palette/paletteSlice.ts:28-30 | The view mode flips, and nothing else changes |
| PaletteReducers.ToggleLayout | src/lib/features/palette/paletteSlice.ts:31-33 | The layout flips, and nothing else changes |
| PaletteReducers.ToggleViewTwice | src/lib/features/palette/paletteSlice.ts:28-33 | Each view toggle undoes itself |
| PaletteReducers.Undo | src/lib/features/palette/paletteSlice.ts:34-41 | Undo moves one step back along the same past/current/future timeline when there is a past, and otherwise changes nothing; the locks and view are untouched |
| PaletteReducers.Redo | src/lib/features/palette/paletteSlice.ts:42-49 | Redo moves one step forward along the same timeline when there is a future, and otherwise changes nothing |
| PaletteReducers.TimelinePosition | src/lib/features/palette/paletteSlice.ts:34-49 | A state is fixed by its timeline and its position on it |
| PaletteReducers.UndoRedo | src/lib/features/palette/paletteSlice.ts:34-49 | Redo after undo gives back the state when there was a past; undo after redo does when there was a future |
| PaletteReducers.UndoN | src/lib/features/palette/paletteSlice.ts:34-41 | k undos stay on the same timeline and step back k positions when the past holds k |
| PaletteReducers.RedoN | src/lib/features/palette/paletteSlice.ts:42-49 | k redos stay on the same timeline and step forward k positions when the future holds k; locks, view mode, layout, status and error are unchanged |
| PaletteReducers.UndoRedoN | src/lib/features/palette/paletteSlice.ts:34-49 | Undoing k times and then redoing k times restores the state, for any k up to the length of the past |
| PaletteReducers.UndoAfterEdit | src/lib/features/palette/paletteSlice.ts:98 | After an edit that records the new palette, undo leaves the palette unchanged and moves it onto the future |
| PaletteReducers.SetPalette | src/lib/features/palette/paletteSlice.ts:100-107 | The palette is replaced, the locks are kept and the new palette is recorded; view mode, layout, status and error are left as they were |
| PaletteReducers.FindIndex | src/lib/features/palette/paletteSlice.ts:110-112 | findIndex: the first position holding the value, or -1 exactly when no position holds it |
| PaletteReducers.ToggleLock | src/lib/features/palette/paletteSlice.ts:108-124 | An unknown colour changes nothing; otherwise the colour's index is toggled in the locks and the edit is recorded; view mode, layout, status and error are left as they were |
| PaletteReducers.ToggleLockTwice | src/lib/features/palette/paletteSlice.ts:108-124 | Toggling keeps the locks strictly increasing and non-negative, and toggling the same colour twice restores them |
| PaletteReducers.Remove | src/lib/features/palette/paletteSlice.ts:135 | splice(index, 1) removes exactly that position and shifts the rest down |
| PaletteReducers.ShiftDown | src/lib/features/palette/paletteSlice.ts:137-143 | Every lock above the deleted index moves down by one, and the others stay |
| PaletteReducers.DeleteLockMembership | src/lib/features/palette/paletteSlice.ts:137-144 | After deleting d, x is locked exactly when x < d was locked, or x > d and x + 1 was locked |
| PaletteReducers.DeleteLocksStrict | src/lib/features/palette/paletteSlice.ts:137-144 | The lock list stays strictly increasing and non-negative through a deletion |
| PaletteReducers.WithoutStrict | src/lib/features/palette/paletteSlice.ts:144 | Filtering out the only value that repeats leaves a sorted list strictly increasing |
| PaletteReducers.DeleteColor | src/lib/features/palette/paletteSlice.ts:125-149 | An unknown colour changes nothing; at three colours or fewer the palette and locks stay but the edit is recorded; otherwise exactly the first colour with that value is removed, the others keep their order, and the locks become the shifted-then-filtered list; a palette of at least three never drops below three; view mode, layout, status and error are left as they were |
| PaletteReducers.DeleteKeepsLockedColours | src/lib/features/palette/paletteSlice.ts:137-144 | Every lock left after a deletion names the colour it named before |
| PaletteReducers.DeleteLocks | src/lib/features/palette/paletteSlice.ts:137-144 | The map-then-filter never grows the lock list and never keeps the deleted index; its membership is stated by DeleteLockMembership |
| PaletteReducers.DeleteDropsNextLock | src/lib/features/palette/paletteSlice.ts:137-144 | The colour right after the deleted one moves into its place but loses its lock |
| PaletteReducers.DeleteLocksIntendedMembership | src/lib/features/palette/paletteSlice.ts:136-144 | For the corrected map DeleteLocksIntended (filter before shift, covered by this row), x is locked exactly when x < d was locked, or x >= d and x + 1 was locked |
| PaletteReducers.DeleteLocksIntendedKeepsLocks | src/lib/features/palette/paletteSlice.ts:136-144 | With the filter before the shift, every colour other than the deleted one keeps its lock state at its new index |
| PaletteReducers.DeleteLocksExample | src/lib/features/palette/paletteSlice.ts:137-144 | Locks {0, 2}, deleting index 1: the code keeps {0}; the intended adjustment keeps {0, 1} |
| PaletteReducers.DeleteColorWellFormed | src/lib/features/palette/paletteSlice.ts:125-149 | deleteColor keeps the locks strictly increasing and non-negative |
| PaletteReducers.MovedIndex | src/lib/features/palette/paletteSlice.ts:167-190 | The lock remap's index map: only the moved colour's index lands on the target, and every other index moves by at most one |
| PaletteReducers.Move | src/lib/features/palette/paletteSlice.ts:157-159 | The splice-and-reinsert keeps the palette's length |
| PaletteReducers.MovedIndexInverse | src/lib/features/palette/paletteSlice.ts:168-190 | The lock remapping is undone by the opposite move, so it is one-to-one, and keeps indices non-negative |
| PaletteReducers.MoveTracksIndex | src/lib/features/palette/paletteSlice.ts:157-190 | The colour at index l is found after the move at the index the lock remapping sends l to |
| PaletteReducers.MoveRoundTrip | src/lib/features/palette/paletteSlice.ts:157-159 | Moving the colour back restores the palette |
| PaletteReducers.MoveLocks | src/lib/features/palette/paletteSlice.ts:167-190 | Each lock is remapped by the move's index map, in order |
| PaletteReducers.Reorder | src/lib/features/palette/paletteSlice.ts:150-195 | Moving onto the same index changes nothing; otherwise the colour is moved, the edit recorded, and the locks become the sorted remap of the old locks; view mode, layout, status and error are left as they were |
| PaletteReducers.ReorderKeepsLockedColours | src/lib/features/palette/paletteSlice.ts:150-195 | After a reorder, an index is locked exactly when the colour now there was locked before |
| PaletteReducers.ReorderLocksInRange | src/lib/features/palette/paletteSlice.ts:150-195 | When every lock is inside the palette before a reorder, every lock is inside it afterwards |
| PaletteReducers.ReorderKeepsOutOfRangeLocks | src/lib/features/palette/paletteSlice.ts:167-190 | A lock at or beyond the palette's end, which a shrink can leave behind, is still in the lock list after a reorder, unchanged |
| PaletteReducers.ReorderWellFormed | src/lib/features/palette/paletteSlice.ts:150-195 | Reordering keeps the locks strictly increasing and non-negative |
| PaletteReducers.ShrinkSlots | src/lib/features/palette/paletteSlice.ts:67-76 | The palette cut to min(length, max(new size, number of locks)) entries, as `slice` clamps at the end, each locked entry kept and each other one emptied |
| PaletteReducers.Holes | src/lib/features/palette/paletteSlice.ts:78 | The filter keeps only holes, and finds none exactly when no entry is a hole |
| PaletteReducers.FillHoles | src/lib/features/palette/paletteSlice.ts:86-91 | Filling keeps the number of entries |
| PaletteReducers.FillHolesPlaces | src/lib/features/palette/paletteSlice.ts:86-91 | Every kept swatch stays in place, and the k-th hole takes the k-th new swatch |
| PaletteReducers.SetPaletteSize | src/lib/features/palette/paletteSlice.ts:50-99 | A size outside [3, 10] changes nothing; growing an empty palette throws; every other size records the edit and keeps the locks, and only the palette and past change |
| PaletteReducers.GrowKeepsColours | src/lib/features/palette/paletteSlice.ts:56-62 | Growing keeps every colour as a prefix and reaches exactly the new size |
| PaletteReducers.ShrinkKeepsLockedColours | src/lib/features/palette/paletteSlice.ts:63-94 | Shrinking keeps every locked, non-empty colour in the kept range at its index |
| PaletteReducers.ShrinkReachesSize | src/lib/features/palette/paletteSlice.ts:63-94 | With an unlocked index below min(length, max(new size, number of locks)), the shrunk palette has exactly min(length, max(new size, number of locks)) colours; exactly the new size when the locks fit |
| PaletteReducers.ShrinkAllLockedKeepsPalette | src/lib/features/palette/paletteSlice.ts:78-92 | When every kept entry is locked and non-empty there is no hole, and the palette keeps all its colours: it does not shrink |
| PaletteReducers.GeneratedPalette | src/lib/features/palette/paletteSlice.ts:14-22 | The thunk's palette has the current size, or 5 for an empty palette |
| PaletteReducers.GeneratedKeepsColours | src/lib/features/palette/paletteSlice.ts:14-22 | The thunk keeps every locked swatch; since it runs the custom generator on the current colours, every position keeps its colour value |
| PaletteReducers.Pending | src/lib/features/palette/paletteSlice.ts:200-202 | Pending sets the status to loading and changes nothing else |
| PaletteReducers.Fulfilled | src/lib/features/palette/paletteSlice.ts:203-211 | Fulfilled records the previous palette, installs the payload, clears the future, keeps the locks and sets the status to idle; the view mode, layout and any earlier error are left as they were |
| PaletteReducers.Rejected | src/lib/features/palette/paletteSlice.ts:212-215 | Rejected sets the status to failed and the error to the message, or to a fixed text when the message is missing or empty; nothing else changes |
| PaletteReducers.UndoAfterGenerate | src/lib/features/palette/paletteSlice.ts:203-211 | Undo straight after a generated palette brings the previous palette back, and redo returns to the generated one |
| PaletteSlice.FindSwatch | src/lib/features/palette/paletteSlice.ts:110-112 | The search loop finds exactly findIndex's position |
| PaletteSlice.FilterOut | src/lib/features/palette/paletteSlice.ts:116 | The filter loop computes exactly the filtered lock list |
| PaletteSlice.SortLocks | src/lib/features/palette/paletteSlice.ts:118-119 | The sort loop computes the sorted permutation of the locks |
| PaletteSlice.ShiftLocksDown | src/lib/features/palette/paletteSlice.ts:137-143 | The map loop shifts exactly the locks above the deleted index |
| PaletteSlice.RemapLocks | src/lib/features/palette/paletteSlice.ts:167-190 | The forEach loop remaps every lock by the move's index map |
| PaletteSlice.TruncateKeepingLocks | src/lib/features/palette/paletteSlice.ts:67-76 | The slice-and-map loop computes exactly the truncated entries |
| PaletteSlice.CollectHoles | src/lib/features/palette/paletteSlice.ts:78 | The filter loop collects exactly the holes, in order |
| PaletteSlice.FillHolesInOrder | src/lib/features/palette/paletteSlice.ts:86-91 | The shift-and-map loop fills exactly as specified |
| PaletteSlice.GenerateNewPalette | src/lib/features/palette/paletteSlice.ts:14-22 | The thunk's body computes exactly the specified payload |
| PaletteSlice.Slice.constructor | src/lib/typings/PaletteState.ts:48-55 | The store starts in the initial state, which is well formed |
| PaletteSlice.Slice.ToggleViewMode | src/lib/features/palette/paletteSlice.ts:28-30 | The in-place update leaves exactly the reducer's state |
| PaletteSlice.Slice.ToggleLayout | src/lib/features/palette/paletteSlice.ts:31-33 | The in-place update leaves exactly the reducer's state |
| PaletteSlice.Slice.Undo | src/lib/features/palette/paletteSlice.ts:34-41 | The in-place update leaves exactly the undo reducer's state |
| PaletteSlice.Slice.Redo | src/lib/features/palette/paletteSlice.ts:42-49 | The in-place update leaves exactly the redo reducer's state |
| PaletteSlice.Slice.SetPalette | src/lib/features/palette/paletteSlice.ts:100-107 | The in-place update leaves exactly the reducer's state |
| PaletteSlice.Slice.ToggleLock | src/lib/features/palette/paletteSlice.ts:108-124 | The in-place update (filter, or push and sort) leaves exactly the reducer's state and keeps the locks well formed |
| PaletteSlice.Slice.DeleteColor | src/lib/features/palette/paletteSlice.ts:125-149 | The in-place splice and lock adjustment leave exactly the reducer's state and keep the locks well formed |
| PaletteSlice.Slice.ReorderPalette | src/lib/features/palette/paletteSlice.ts:150-195 | The in-place splices and lock remapping leave exactly the reducer's state and keep the locks well formed |
| PaletteSlice.Slice.SetPaletteSize | src/lib/features/palette/paletteSlice.ts:50-99 | Throws exactly when the reducer does, leaving the state alone; otherwise leaves exactly the reducer's state; well-formedness is unchanged |
| PaletteSlice.Slice.GenerateNewPalettePending | src/lib/features/palette/paletteSlice.ts:200-202 | The in-place update leaves exactly the pending reducer's state |
| PaletteSlice.Slice.GenerateNewPaletteFulfilled | src/lib/features/palette/paletteSlice.ts:203-211 | The in-place update leaves exactly the fulfilled reducer's state |
| PaletteSlice.Slice.GenerateNewPaletteRejected | src/lib/features/palette/paletteSlice.ts:212-215 | The in-place update leaves exactly the rejected reducer's state |
| PaletteSlice.Slice.DispatchGenerateNewPalette | src/lib/features/palette/paletteSlice.ts:14-22 | Pending, then the payload from the state at that point, then fulfilled; undo afterwards restores the palette from before the dispatch |
| Observables.Remove | src/lib/utils/observable.ts:17 | The filter keeps exactly the observers other than the given one, so the given one is absent |
| Observables.RemoveAbsent | src/lib/utils/observable.ts:17 | Filtering out a callback that is not there changes nothing |
| Observables.RemoveAppend | src/lib/utils/observable.ts:17 | The filter distributes over concatenation |
| Observables.SubscribeThenRemove | src/lib/utils/observable.ts:8-18 | Subscribing a new callback and keeping the filtered list on unsubscribe restores the observers |
| Observables.Observable.constructor | src/lib/utils/observable.ts:4-6 | A new observable has no observers |
| Observables.Observable.Subscribe | src/lib/utils/observable.ts:8-14 | The callback is appended, and the returned closure unsubscribes that callback |
| Observables.Observable.Unsubscribe | src/lib/utils/observable.ts:16-18 | As written: the filtered list is computed and dropped, and the observers are not modified |
| Observables.Observable.CallUnsubscriber | src/lib/utils/observable.ts:11-13 | Calling the returned closure is unsubscribe of its callback |
| Observables.Observable.UnsubscribeAndKeep | src/lib/utils/observable.ts:16-18 | Corrected: the observers become the filtered list |
| Observables.Observable.Notify | src/lib/utils/observable.ts:20-22 | Every observer is called once, in subscription order, with the same data |
| Observables.UnsubscribeKeepsObserver | src/lib/utils/observable.ts:8-22 | As written, a callback that was subscribed and then unsubscribed through its closure is still an observer and is still notified |
| Observables.UnsubscribeAndKeepRemoves | src/lib/utils/observable.ts:8-18 | Corrected, the callback is gone after unsubscribing and the other observers stay, in order |
| PeriodicTasks.PeriodicTaskRunner.constructor | src/lib/utils/periodic-task-runner.ts:7-13 | A runner with a positive interval starts stopped, with no timer and no task in flight |
| PeriodicTasks.PeriodicTaskRunner.Create | src/lib/utils/periodic-task-runner.ts:9-11 | Construction fails exactly when the interval is not positive |
| PeriodicTasks.PeriodicTaskRunner.Start | src/lib/utils/periodic-task-runner.ts:15-37 | Starting a running runner changes nothing; otherwise it runs with exactly one pending timeout, and the invariant holds |
| PeriodicTasks.PeriodicTaskRunner.ScheduleNext | src/lib/utils/periodic-task-runner.ts:39-51 | When stopped nothing happens; otherwise the named timeout is cleared and a fresh one set, which is then the only pending one |
| PeriodicTasks.PeriodicTaskRunner.Running | src/lib/utils/periodic-task-runner.ts:86-88 | The getter returns the running flag; a stopped runner satisfying Valid() has no timer named and none pending |
| PeriodicTasks.PeriodicTaskRunner.Stop | src/lib/utils/periodic-task-runner.ts:72-84 | After stop the runner is stopped with no timer named and no timeout pending |
| PeriodicTasks.PeriodicTaskRunner.Fire | src/lib/utils/periodic-task-runner.ts:51-59 | A pending timeout fires only on a running runner, and its callback starts the job |
| PeriodicTasks.PeriodicTaskRunner.TimeoutCallback | src/lib/utils/periodic-task-runner.ts:51-59 | The callback starts the job exactly when the runner is running; otherwise it clears the timer and runs nothing |
| PeriodicTasks.PeriodicTaskRunner.TaskDone | src/lib/utils/periodic-task-runner.ts:59-68 | A failed task stops the runner; the next timeout is set exactly when the runner is still running, otherwise no timer is left; the invariant holds |
| PeriodicTasks.StartFireCompleteStop | src/lib/utils/periodic-task-runner.ts:15-84 | Start, one run and stop leave the runner stopped with no timeout pending, so no further run can happen |
| PalettePreview.Decorators | src/lib/hooks/usePalettePreview.ts:18-27 | Two decorators: the fallbacks for an empty palette, otherwise the first and last values; one colour gives that colour twice |
| PalettePreview.FixedSwatches | src/lib/hooks/usePalettePreview.ts:48-53 | n fixed swatches (none for n <= 0); swatch i is fixed colour i mod 9, scored |
| PalettePreview.FixedPreview | src/lib/hooks/usePalettePreview.ts:32-65 | The fixed preview's decorators are the first fixed colour and the one of the last swatch, or the first two fixed colours for an empty palette |
| PalettePreview.PushFixedSwatches | src/lib/hooks/usePalettePreview.ts:48-53 | The loop pushes exactly the fixed swatches |
| PalettePreview.CreateFixedInitialPalettePreview | src/lib/hooks/usePalettePreview.ts:32-65 | The builder computes exactly the fixed preview |
| PalettePreview.FixedPreviewStable | src/lib/hooks/usePalettePreview.ts:48-53 | The fixed preview is deterministic: a larger size extends a smaller one, and the swatches repeat every nine |
| PalettePreview.FixedPreviewUsesFixedColours | src/lib/hooks/usePalettePreview.ts:35-62 | Every fixed swatch and decorator is one of the nine fixed colours |
| PalettePreview.RandomPreview | src/lib/hooks/usePalettePreview.ts:13-28 | The random preview is generatePalette for the size alone, with exactly that many swatches, and its decorators fall back to black and white |
| PalettePreview.GenerateRandomPalettePreview | src/lib/hooks/usePalettePreview.ts:13-28 | The builder computes exactly the random preview |
| PalettePreview.UsePalettePreview | src/lib/hooks/usePalettePreview.ts:108-118 | The hook returns the stored preview once there is one, and the fixed swatches before that |
| PalettePreview.UsePalettePreviewShape | src/lib/hooks/usePalettePreview.ts:107-118 | Before a generated preview is stored the hook returns the fixed preview; either way the preview has paletteSize swatches and two decorators, the first and last swatch's values |

## Left out

- Color.Palette: does not model the floating-point colour science of chroma-js (hex parsing and formatting, HSL/LCH conversion, luminance contrast, LCH interpolation, darken, brighten, saturate). These are parameters of `Chroma.Ops`, and only the facts in `Chroma.Valid` are assumed of them.
- Color.Palette: does not model the randomness of `chroma.random()`. Random colours are drawn from `Color.Random`, one stream per call site, and are supplied by the caller.
- Color.Palette: does not model `generatorParams.currentHexPalette` being undefined versus empty separately. Both select the same branch of the custom generator.
- Color.Swatch: does not model the difference between `"white"` and `"#FFFFFF"` in the contrast calls. chroma parses both to the same colour, so the model uses one constant.
- Color.GetComplementaryColor: models a thrown chroma error only as an unparsable input. Other chroma exceptions are not modelled.
- Color.Swatch: does not model the exception `chroma(colorHex)` throws on an unparsable colour; the model scores every colour as chroma's total stand-in parses it.
- Color.Palette: does not model the exception `chroma(startColorHex)` throws in the generators on an unparsable start colour; the model returns a palette for every start colour.
- Color.Generate: the generators' hue arithmetic (offsets, steps, the modulo by 360) is exact over real numbers where the source uses IEEE doubles.
- Color.SelectedType: takes the palette type as a name and covers the names TypeScript's `PaletteType` admits. An untyped name that hits an `Object.prototype` member of the generator map (such as "toString") is not modelled; the model treats it as a name with no generator.
- Vision.SimulateColorBlindness: the arithmetic is exact (real numbers) where the source uses IEEE doubles. Halves round up, as Math.round does.
- PeriodicTasks.PeriodicTaskRunner.Start: does not model the `setInterval` mode (`start(true)`), which nothing in the application uses. Only the default timeout chain is modelled.
- PeriodicTasks.PeriodicTaskRunner.Fire: real time, the host's event loop and `await` are events the caller sends (`Fire`, `TaskDone`). The job itself is not run.
- PeriodicTasks.PeriodicTaskRunner.TaskDone: does not log the error on failure (`console.error`).
- Observables.Observable.Notify: the observers are not called. Each observer is an identity of an equality type, and the notification is returned as the log of the calls it would make, in order.
- Observables.Observable.Unsubscribe: returns the filtered list it computes so that the discarded result is visible; the source returns nothing.
- PaletteSlice.Slice.ReorderPalette: requires both indices to be positions of the palette, as the page's drag handler guarantees (src/app/generator/page.tsx:57-62). Out-of-range indices are not modelled.
- PaletteSlice.Slice.SetPaletteSize: models the exception thrown when growing an empty palette as the result `thrown`, with the state left as it was. The store's error propagation is not modelled.
- PaletteSlice.Slice.DispatchGenerateNewPalette: does not model the asynchrony of the thunk; pending and fulfilled run back to back. The rejected case is a separate method.
- PalettePreview.UsePalettePreview: the React hook's state, effects, re-renders and the runner it starts are not modelled. Only its choice between the fixed and the stored preview is modelled.
- Logging (`console.warn`, `console.error`) is left out everywhere.
- The UI components, the API routes, the store setup and the persistence layer are not part of this model.

## Findings

| source | as written | input that shows it | evidently intended | confidence | as-written member | corrected member |
|---|---|---|---|---|---|---|
| src/lib/features/palette/paletteSlice.ts:137-144 | `deleteColor` shifts the locks above the deleted index down before filtering out the deleted index, so the lock of the colour right after it is filtered out too | locks {0, 2}, delete the colour at index 1: the colour at index 2 moves to index 1 and the locks become {0} | filter out the deleted index first, then shift, so the locks become {0, 1}, as the comment "Adjust locked indices after deletion" at :136 intends | not executed | PaletteReducers.DeleteDropsNextLock | PaletteReducers.DeleteLocksIntendedKeepsLocks |
| src/lib/utils/observable.ts:17 | `unsubscribe` computes `observers.filter(...)` and drops the result, so no observer is ever removed | subscribe a callback, call the returned unsubscribe closure, then notify: the callback is still called | `this.observers = this.observers.filter(...)` | not executed | Observables.UnsubscribeKeepsObserver | Observables.UnsubscribeAndKeepRemoves |
