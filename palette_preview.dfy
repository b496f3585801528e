/**
 * The home page's palette preview: a fixed palette cycling through nine neutral shades for the first
 * render, a generated one afterwards, each with two decorator colours taken from its first and
 * last swatch.
 */
module PalettePreview {
  import opened Wrappers
  import opened Chroma
  import opened PaletteState
  import Color

  datatype PalettePreviewData = PalettePreviewData(samplePalette: seq<ColorSwatch>, decorators: seq<string>)

  const DefaultFixedColors: seq<string> :=
    ["#f8f9fa", "#e9ecef", "#dee2e6", "#ced4da", "#adb5bd", "#6c757d", "#495057", "#343a40", "#212529"]

  /**
   * The two decorators: the first and last swatch's values, or the fallbacks for an empty palette;
   * a one-colour palette gives that colour twice.
   */
  function Decorators(palette: seq<ColorSwatch>, fallback1: string, fallback2: string): (d: seq<string>)
    ensures |d| == 2
    ensures |palette| == 0 ==> d == [fallback1, fallback2]
    ensures |palette| > 0 ==> d[0] == palette[0].value && d[1] == palette[|palette| - 1].value
    ensures |palette| == 1 ==> d[0] == d[1]
  {
    if |palette| > 0 then [palette[0].value, palette[|palette| - 1].value] else [fallback1, fallback2]
  }

  /** The fixed swatches: n of them (none for n below one), swatch i scored from fixed colour i mod 9. */
  function FixedSwatches(ops: Ops, n: int): (palette: seq<ColorSwatch>)
    ensures |palette| == Color.MaxZero(n)
    ensures forall i :: 0 <= i < |palette| ==> palette[i] == Color.Swatch(ops, DefaultFixedColors[i % |DefaultFixedColors|])
  {
    seq(Color.MaxZero(n), i requires 0 <= i < Color.MaxZero(n) => Color.Swatch(ops, DefaultFixedColors[i % |DefaultFixedColors|]))
  }

  /**
   * createFixedInitialPalettePreview: the fixed swatches; the decorators are the fixed colours of
   * the first and last swatch, or the first two fixed colours for an empty palette.
   */
  function FixedPreview(ops: Ops, paletteSize: int): (p: PalettePreviewData)
    ensures p.samplePalette == FixedSwatches(ops, paletteSize)
    ensures p.decorators == if paletteSize > 0
                            then [DefaultFixedColors[0], DefaultFixedColors[(paletteSize - 1) % |DefaultFixedColors|]]
                            else [DefaultFixedColors[0], DefaultFixedColors[1]]
  {
    var samplePalette := FixedSwatches(ops, paletteSize);
    PalettePreviewData(samplePalette, Decorators(samplePalette, DefaultFixedColors[0], DefaultFixedColors[1]))
  }

  /** The `for` loop of createFixedInitialPalettePreview. */
  method PushFixedSwatches(ops: Ops, paletteSize: int) returns (samplePalette: seq<ColorSwatch>)
    ensures samplePalette == FixedSwatches(ops, paletteSize)
  {
    samplePalette := [];
    var i := 0;
    while i < paletteSize
      invariant 0 <= i <= Color.MaxZero(paletteSize)
      invariant |samplePalette| == i
      invariant forall k :: 0 <= k < i ==> samplePalette[k] == Color.Swatch(ops, DefaultFixedColors[k % |DefaultFixedColors|])
    {
      var colorHex := DefaultFixedColors[i % |DefaultFixedColors|];
      var swatch := Color.GenerateColorSwatch(ops, colorHex, colorHex);
      samplePalette := samplePalette + [swatch];
      i := i + 1;
    }
  }

  method CreateFixedInitialPalettePreview(ops: Ops, paletteSize: int) returns (p: PalettePreviewData)
    ensures p == FixedPreview(ops, paletteSize)
  {
    var samplePalette := PushFixedSwatches(ops, paletteSize);
    var decoratorColor1 := DefaultFixedColors[0];
    // The second fixed colour is never empty, so its `|| defaultFixedColors[0]` fallback never applies.
    var decoratorColor2 := DefaultFixedColors[1];
    if |samplePalette| > 0 {
      decoratorColor1 := samplePalette[0].value;
      decoratorColor2 := samplePalette[|samplePalette| - 1].value;
    }
    p := PalettePreviewData(samplePalette, [decoratorColor1, decoratorColor2]);
  }

  /**
   * The fixed preview takes no random input, so it is the same on every render; a larger size
   * extends a smaller one's swatches, and the swatches repeat every nine.
   */
  lemma {:induction false} FixedPreviewStable(ops: Ops, m: int, n: int, i: int)
    requires 0 <= m <= n
    ensures FixedPreview(ops, n).samplePalette[..m] == FixedPreview(ops, m).samplePalette
    ensures 0 <= i && i + |DefaultFixedColors| < n ==>
              FixedPreview(ops, n).samplePalette[i] == FixedPreview(ops, n).samplePalette[i + |DefaultFixedColors|]
  {
    assert (i + |DefaultFixedColors|) % |DefaultFixedColors| == i % |DefaultFixedColors|;
  }

  /** Every fixed swatch and decorator is one of the nine fixed colours. */
  lemma FixedPreviewUsesFixedColours(ops: Ops, paletteSize: int)
    ensures forall i :: 0 <= i < |FixedPreview(ops, paletteSize).samplePalette| ==>
              FixedPreview(ops, paletteSize).samplePalette[i].value in DefaultFixedColors
    ensures forall k :: 0 <= k < 2 ==> FixedPreview(ops, paletteSize).decorators[k] in DefaultFixedColors
  {
  }

  /**
   * generateRandomPalettePreview: a palette generated from the size alone, paletteSize colours
   * long (none for a size below one), with its decorators, black and white for an empty palette.
   */
  function RandomPreview(ops: Ops, paletteSize: int, rnd: Color.Random): (p: PalettePreviewData)
    ensures p.samplePalette == Color.Palette(ops, Color.SizeOnly(paletteSize), rnd)
    ensures |p.samplePalette| == Color.MaxZero(paletteSize)
    ensures p.decorators == Decorators(p.samplePalette, "#000000", "#FFFFFF")
  {
    var samplePalette := Color.Palette(ops, Color.SizeOnly(paletteSize), rnd);
    PalettePreviewData(samplePalette, Decorators(samplePalette, "#000000", "#FFFFFF"))
  }

  method GenerateRandomPalettePreview(ops: Ops, paletteSize: int, rnd: Color.Random) returns (p: PalettePreviewData)
    ensures p == RandomPreview(ops, paletteSize, rnd)
  {
    var samplePalette := Color.GeneratePalette(ops, Color.SizeOnly(paletteSize), rnd);
    var decoratorColor1 := "#000000";
    var decoratorColor2 := "#FFFFFF";
    if |samplePalette| > 0 {
      decoratorColor1 := samplePalette[0].value;
      decoratorColor2 := samplePalette[|samplePalette| - 1].value;
    }
    p := PalettePreviewData(samplePalette, [decoratorColor1, decoratorColor2]);
  }

  /** The hook's choice: the fixed preview until a generated one is stored, then the stored one. */
  function UsePalettePreview(ops: Ops, paletteSize: int, stored: Option<PalettePreviewData>): (p: PalettePreviewData)
    ensures stored.Some? ==> p == stored.value
    ensures stored.None? ==> p.samplePalette == FixedSwatches(ops, paletteSize)
  {
    if stored.None? then FixedPreview(ops, paletteSize) else stored.value
  }

  /**
   * Whichever preview the hook returns — the fixed one, or a stored one that the random builder
   * made for the same size — it has paletteSize swatches and two decorators, which for a
   * non-empty palette are its first and last swatch's values.
   */
  lemma UsePalettePreviewShape(ops: Ops, paletteSize: int, stored: Option<PalettePreviewData>, rnd: Color.Random)
    requires stored.None? || stored.value == RandomPreview(ops, paletteSize, rnd)
    ensures var p := UsePalettePreview(ops, paletteSize, stored);
            |p.samplePalette| == Color.MaxZero(paletteSize) && |p.decorators| == 2 &&
            (paletteSize > 0 ==> p.decorators == [p.samplePalette[0].value, p.samplePalette[paletteSize - 1].value])
    ensures stored.None? ==> UsePalettePreview(ops, paletteSize, stored) == FixedPreview(ops, paletteSize)
  {
  }
}
