/**
 * Colour-vision-deficiency simulation: nine fixed 3x3 matrices applied to an RGB triple.
 * The arithmetic is exact (real numbers), with JavaScript's Math.round written as Floor(x + 1/2).
 */
module Vision {
  import opened Wrappers
  import opened Chroma

  datatype Deficiency =
    | Protanopia | Deuteranopia | Tritanopia | Achromatopsia | Protanomaly
    | Deuteranomaly | Tritanomaly | Monochromacy | Achromatomaly

  /** VISION_DEFICIENCY_TYPES, in the source's order. */
  const VisionDeficiencyTypes: seq<Deficiency> :=
    [Protanopia, Deuteranopia, Tritanopia, Achromatopsia, Protanomaly,
     Deuteranomaly, Tritanomaly, Monochromacy, Achromatomaly]

  /** The string literal of each `VisionDeficiencyName`. */
  function Name(d: Deficiency): string {
    match d
    case Protanopia => "protanopia"
    case Deuteranopia => "deuteranopia"
    case Tritanopia => "tritanopia"
    case Achromatopsia => "achromatopsia"
    case Protanomaly => "protanomaly"
    case Deuteranomaly => "deuteranomaly"
    case Tritanomaly => "tritanomaly"
    case Monochromacy => "monochromacy"
    case Achromatomaly => "achromatomaly"
  }

  /** The lookup `VISION_DEFICIENCY_MATRICES[name]`: None for a name the table does not hold. */
  function ParseDeficiency(name: string): (r: Option<Deficiency>)
    ensures r.Some? ==> Name(r.value) == name
    ensures r.None? ==> forall d :: Name(d) != name
  {
    if name == "protanopia" then Some(Protanopia)
    else if name == "deuteranopia" then Some(Deuteranopia)
    else if name == "tritanopia" then Some(Tritanopia)
    else if name == "achromatopsia" then Some(Achromatopsia)
    else if name == "protanomaly" then Some(Protanomaly)
    else if name == "deuteranomaly" then Some(Deuteranomaly)
    else if name == "tritanomaly" then Some(Tritanomaly)
    else if name == "monochromacy" then Some(Monochromacy)
    else if name == "achromatomaly" then Some(Achromatomaly)
    else None
  }

  /** Every deficiency type is listed exactly once, and its name finds its matrix again. */
  lemma DeficiencyTypesComplete(d: Deficiency)
    ensures |VisionDeficiencyTypes| == 9
    ensures d in VisionDeficiencyTypes
    ensures ParseDeficiency(Name(d)) == Some(d)
    ensures forall i, j :: 0 <= i < j < |VisionDeficiencyTypes| ==>
              Name(VisionDeficiencyTypes[i]) != Name(VisionDeficiencyTypes[j])
  {
  }

  datatype Row = Row(r: real, g: real, b: real)
  datatype Matrix = Matrix(red: Row, green: Row, blue: Row)

  const Luminance: Row := Row(0.299, 0.587, 0.114)

  /** VISION_DEFICIENCY_MATRICES. */
  function MatrixOf(d: Deficiency): Matrix {
    match d
    case Protanopia =>
      Matrix(Row(0.567, 0.433, 0.0), Row(0.558, 0.442, 0.0), Row(0.0, 0.242, 0.758))
    case Deuteranopia =>
      Matrix(Row(0.625, 0.375, 0.0), Row(0.7, 0.3, 0.0), Row(0.0, 0.3, 0.7))
    case Tritanopia =>
      Matrix(Row(0.95, 0.05, 0.0), Row(0.0, 0.433, 0.567), Row(0.0, 0.475, 0.525))
    case Achromatopsia =>
      Matrix(Row(0.299, 0.587, 0.114), Row(0.299, 0.587, 0.114), Row(0.299, 0.587, 0.114))
    case Protanomaly =>
      Matrix(Row(0.817, 0.183, 0.0), Row(0.333, 0.667, 0.0), Row(0.0, 0.125, 0.875))
    case Deuteranomaly =>
      Matrix(Row(0.8, 0.2, 0.0), Row(0.258, 0.742, 0.0), Row(0.0, 0.142, 0.858))
    case Tritanomaly =>
      Matrix(Row(0.967, 0.033, 0.0), Row(0.0, 0.733, 0.267), Row(0.0, 0.183, 0.817))
    case Monochromacy =>
      Matrix(Row(0.299, 0.587, 0.114), Row(0.299, 0.587, 0.114), Row(0.299, 0.587, 0.114))
    case Achromatomaly =>
      Matrix(Row(0.618, 0.32, 0.062), Row(0.163, 0.775, 0.062), Row(0.163, 0.32, 0.516))
  }

  function RowSum(row: Row): real {
    row.r + row.g + row.b
  }

  /**
   * Every row of every matrix sums to exactly 1, except the third row of achromatomaly (0.999);
   * achromatopsia and monochromacy share one matrix whose three rows are the luminance weights.
   */
  lemma MatrixTableShape(d: Deficiency)
    ensures d != Achromatomaly ==>
              RowSum(MatrixOf(d).red) == RowSum(MatrixOf(d).green) == RowSum(MatrixOf(d).blue) == 1.0
    ensures RowSum(MatrixOf(Achromatomaly).red) == RowSum(MatrixOf(Achromatomaly).green) == 1.0
    ensures RowSum(MatrixOf(Achromatomaly).blue) == 0.999
    ensures MatrixOf(Achromatopsia) == MatrixOf(Monochromacy) == Matrix(Luminance, Luminance, Luminance)
  {
  }

  /** Math.round: halves go up. */
  function Round(x: real): (n: int)
    ensures x - 0.5 < n as real <= x + 0.5
  {
    (x + 0.5).Floor
  }

  /** Math.max(0, Math.min(255, v)). */
  function Clamp255(v: int): (c: int)
    ensures 0 <= c <= 255
    ensures 0 <= v <= 255 ==> c == v
  {
    if v < 0 then 0 else if v > 255 then 255 else v
  }

  /** Dividing a channel by 255 and scaling the weighted value back by 255 cancel out. */
  lemma Unscale(x: real, w: real)
    ensures (x / 255.0) * w * 255.0 == x * w
  {
    assert (x / 255.0) * w * 255.0 == ((x / 255.0) * 255.0) * w;
  }

  /** The row's weights applied to the channel values themselves. */
  function Weighted(c: Rgb, row: Row): real {
    c.r as real * row.r + c.g as real * row.g + c.b as real * row.b
  }

  lemma ScaleBack(c: Rgb, row: Row)
    ensures ((c.r as real / 255.0) * row.r + (c.g as real / 255.0) * row.g + (c.b as real / 255.0) * row.b) * 255.0
            == Weighted(c, row)
  {
    Unscale(c.r as real, row.r);
    Unscale(c.g as real, row.g);
    Unscale(c.b as real, row.b);
  }

  /** One output channel: the row applied to the normalised triple, scaled back, rounded, clamped. */
  function Channel(c: Rgb, row: Row): (v: int)
    ensures v == Clamp255(Round(Weighted(c, row)))
  {
    var normalized := (c.r as real / 255.0) * row.r + (c.g as real / 255.0) * row.g
                      + (c.b as real / 255.0) * row.b;
    ScaleBack(c, row);
    Clamp255(Round(normalized * 255.0))
  }

  /**
   * applyDeficiencyMatrix: every output channel is the matching row's weights applied to the
   * input channels, rounded and clamped to an integer in [0, 255].
   */
  function ApplyDeficiencyMatrix(c: Rgb, m: Matrix): (out: Rgb)
    ensures ChannelsInRange(out)
    ensures out.r == Clamp255(Round(Weighted(c, m.red)))
    ensures out.g == Clamp255(Round(Weighted(c, m.green)))
    ensures out.b == Clamp255(Round(Weighted(c, m.blue)))
  {
    Rgb(Channel(c, m.red), Channel(c, m.green), Channel(c, m.blue))
  }

  /** Under achromatopsia and monochromacy every colour becomes a grey (R = G = B). */
  lemma AchromaticOutputIsGrey(c: Rgb, d: Deficiency)
    requires d == Achromatopsia || d == Monochromacy
    ensures ApplyDeficiencyMatrix(c, MatrixOf(d)) == ApplyDeficiencyMatrix(c, MatrixOf(Achromatopsia))
    ensures var out := ApplyDeficiencyMatrix(c, MatrixOf(d)); out.r == out.g == out.b
  {
  }

  /** One row summing to s maps the grey level v to Round(v * s). */
  lemma GreyChannel(v: int, row: Row)
    ensures Channel(Rgb(v, v, v), row) == Clamp255(Round(v as real * RowSum(row)))
  {
    assert Weighted(Rgb(v, v, v), row) == v as real * RowSum(row);
  }

  /**
   * A grey input maps to itself under every deficiency: the rows summing to 1 give back v exactly,
   * and achromatomaly's 0.999 loses at most 0.255, which the rounding restores.
   */
  lemma {:induction false} GreyIsFixed(v: int, d: Deficiency)
    requires 0 <= v <= 255
    ensures ApplyDeficiencyMatrix(Rgb(v, v, v), MatrixOf(d)) == Rgb(v, v, v)
  {
    var m := MatrixOf(d);
    MatrixTableShape(d);
    GreyChannel(v, m.red);
    GreyChannel(v, m.green);
    GreyChannel(v, m.blue);
    if d == Achromatomaly {
      assert Round(v as real * 0.999) == v;
    }
  }

  /** The transform has no offset: black stays black under every deficiency. */
  lemma BlackIsFixed(d: Deficiency)
    ensures ApplyDeficiencyMatrix(Rgb(0, 0, 0), MatrixOf(d)) == Rgb(0, 0, 0)
  {
    GreyIsFixed(0, d);
  }

  /**
   * simulateColorBlindness: an unparsable colour or an unknown deficiency name gives back the
   * input unchanged; otherwise the formatted transform of the parsed triple.
   */
  function SimulateColorBlindness(ops: Ops, hex: Hex, name: string): (r: Hex)
    ensures ops.parse(hex).None? ==> r == hex
    ensures ParseDeficiency(name).None? ==> r == hex
    ensures ops.parse(hex).Some? && ParseDeficiency(name).Some? ==>
              r == ops.format(ApplyDeficiencyMatrix(ops.parse(hex).value, MatrixOf(ParseDeficiency(name).value)))
  {
    match ops.parse(hex)
    case None => hex
    case Some(rgb) =>
      match ParseDeficiency(name)
      case None => hex
      case Some(d) => ops.format(ApplyDeficiencyMatrix(rgb, MatrixOf(d)))
  }

  /** Simulating a grey "#vvvvvv" that chroma parses as (v, v, v) formats that same grey. */
  lemma GreySimulationIsGrey(ops: Ops, hex: Hex, v: int, d: Deficiency)
    requires 0 <= v <= 255
    requires ops.parse(hex) == Some(Rgb(v, v, v))
    ensures SimulateColorBlindness(ops, hex, Name(d)) == ops.format(Rgb(v, v, v))
  {
    DeficiencyTypesComplete(d);
    GreyIsFixed(v, d);
  }
}
