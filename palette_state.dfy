/** The palette store's data model: swatches, palette types, size bounds and the initial state. */
module PaletteState {
  import opened Wrappers
  import Vision

  datatype Accessibility = AAA | AA | Fail

  datatype PaletteStatus = Idle | Loading | Failed

  datatype PaletteLayout = Horizontal | Vertical

  datatype PaletteViewMode = Compact | Full

  datatype PaletteType =
    | Analogous | Monochromatic | Complementary | Triadic | Tetradic | SplitComplementary
    | Square | Rectangle | Circle | Triangle | Pentagon | Hexagon | Heptagon | Octagon
    | Star | Gradient | Custom

  /** The string literal of each `PaletteType`. */
  function PaletteTypeName(t: PaletteType): string {
    match t
    case Analogous => "analogous"
    case Monochromatic => "monochromatic"
    case Complementary => "complementary"
    case Triadic => "triadic"
    case Tetradic => "tetradic"
    case SplitComplementary => "split-complementary"
    case Square => "square"
    case Rectangle => "rectangle"
    case Circle => "circle"
    case Triangle => "triangle"
    case Pentagon => "pentagon"
    case Hexagon => "hexagon"
    case Heptagon => "heptagon"
    case Octagon => "octagon"
    case Star => "star"
    case Gradient => "gradient"
    case Custom => "custom"
  }

  /** Looks a palette type up by name: None for any string that is not one of the 17 literals. */
  function ParsePaletteType(name: string): (r: Option<PaletteType>)
    ensures r.Some? ==> PaletteTypeName(r.value) == name
    ensures r.None? ==> forall t :: PaletteTypeName(t) != name
  {
    if name == "analogous" then Some(Analogous)
    else if name == "monochromatic" then Some(Monochromatic)
    else if name == "complementary" then Some(Complementary)
    else if name == "triadic" then Some(Triadic)
    else if name == "tetradic" then Some(Tetradic)
    else if name == "split-complementary" then Some(SplitComplementary)
    else if name == "square" then Some(Square)
    else if name == "rectangle" then Some(Rectangle)
    else if name == "circle" then Some(Circle)
    else if name == "triangle" then Some(Triangle)
    else if name == "pentagon" then Some(Pentagon)
    else if name == "hexagon" then Some(Hexagon)
    else if name == "heptagon" then Some(Heptagon)
    else if name == "octagon" then Some(Octagon)
    else if name == "star" then Some(Star)
    else if name == "gradient" then Some(Gradient)
    else if name == "custom" then Some(Custom)
    else None
  }

  const AllPaletteTypes: seq<PaletteType> :=
    [Analogous, Monochromatic, Complementary, Triadic, Tetradic, SplitComplementary, Square,
     Rectangle, Circle, Triangle, Pentagon, Hexagon, Heptagon, Octagon, Star, Gradient, Custom]

  /** Every palette type's name finds that palette type again. */
  lemma PaletteTypeNameRoundTrip(t: PaletteType)
    ensures ParsePaletteType(PaletteTypeName(t)) == Some(t)
  {
    match t
    case Analogous =>
    case Monochromatic =>
    case Complementary =>
    case Triadic =>
    case Tetradic =>
    case SplitComplementary =>
    case Square =>
    case Rectangle =>
    case Circle =>
    case Triangle =>
    case Pentagon =>
    case Hexagon =>
    case Heptagon =>
    case Octagon =>
    case Star =>
    case Gradient =>
    case Custom =>
  }

  /** PaletteType is a closed set of 17 values, custom among them, with 17 distinct names. */
  lemma PaletteTypesClosed(t: PaletteType, u: PaletteType)
    ensures |AllPaletteTypes| == 17 && t in AllPaletteTypes && Custom in AllPaletteTypes
    ensures PaletteTypeName(t) == PaletteTypeName(u) ==> t == u
  {
    PaletteTypeNameRoundTrip(t);
    PaletteTypeNameRoundTrip(u);
  }

  /** The list of palette types names each one once. */
  lemma AllPaletteTypesDistinct()
    ensures forall i, j :: 0 <= i < j < |AllPaletteTypes| ==> AllPaletteTypes[i] != AllPaletteTypes[j]
  {
    forall i, j | 0 <= i < j < |AllPaletteTypes|
      ensures AllPaletteTypes[i] != AllPaletteTypes[j]
    {
      PaletteTypeNameRoundTrip(AllPaletteTypes[i]);
    }
  }

  const DefaultPaletteSize: int := 5
  const MinPaletteSize: int := 3
  const MaxPaletteSize: int := 10

  lemma SizeBoundsOrdered()
    ensures MinPaletteSize == 3 && DefaultPaletteSize == 5 && MaxPaletteSize == 10
    ensures MinPaletteSize <= DefaultPaletteSize <= MaxPaletteSize
  {
  }

  /** A swatch: `value`, `contrast` and `accessibility` are always present; the rest is optional. */
  datatype ColorSwatch = ColorSwatch(
    value: string,
    contrast: real,
    accessibility: Accessibility,
    textColor: Option<string>,
    visionDeficiency: Option<map<Vision.Deficiency, string>>)

  /** The palette slice's state; `status` and `error` are absent until the thunk first runs. */
  datatype State = State(
    viewMode: PaletteViewMode,
    currentPalette: seq<ColorSwatch>,
    lockedIndices: seq<int>,
    layout: PaletteLayout,
    status: Option<PaletteStatus>,
    error: Option<string>,
    past: seq<seq<ColorSwatch>>,
    future: seq<seq<ColorSwatch>>)

  const InitialState: State := State(Full, [], [], Vertical, None, None, [], [])
}
