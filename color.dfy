/**
 * Swatch scoring, colour helpers, the harmony generators, their dispatch by palette type, and
 * generatePalette, which forces the requested length and keeps locked swatches.
 */
module Color {
  import opened Wrappers
  import opened Chroma
  import opened Vision
  import opened PaletteState

  const HueStepTriadic: real := 120.0
  const HueStepSquare: real := 90.0
  const HueSplitComplementaryOffset: real := 30.0
  const HueTetradicOffsets: seq<real> := [0.0, 60.0, 180.0, 240.0]
  const HueRectangleOffsets: seq<real> := HueTetradicOffsets
  const DefaultAnalogousHueRange: real := 60.0
  const MinContrastAA: real := 4.5
  const MinContrastAAA: real := 7.0
  const MonochromaticLchLightnessMin: real := 10.0
  const MonochromaticLchLightnessMax: real := 90.0

  /** The two text colours. chroma parses "white" and "#FFFFFF" to the same colour. */
  const White: Hex := "#FFFFFF"
  const Black: Hex := "#000000"

  /**
   * The values chroma.random() returns, one stream per call site: the start colour of
   * generatePalette, the fallback of _getComplementaryColor, the i-th colour that
   * _distributeKeyColors draws without keys, the i-th padding colour, and the colour that
   * generateColorSwatch draws for position i when it is given no colour.
   */
  datatype Random = Random(
    start: Hex,
    complement: Hex,
    keys: nat -> Hex,
    pad: nat -> Hex,
    swatch: nat -> Hex)

  /** `o || fallback` on an optional string: undefined and "" both select the fallback. */
  function Or(o: Option<Hex>, fallback: Hex): (r: Hex)
    ensures o.Some? && o.value != "" ==> r == o.value
    ensures (o.None? || o.value == "") ==> r == fallback
  {
    if o.Some? && o.value != "" then o.value else fallback
  }

  /** JavaScript's `x % 360`: the remainder takes the sign of x. */
  function Mod360(x: real): (r: real)
    ensures 0.0 <= x ==> 0.0 <= r < 360.0
    ensures x < 0.0 ==> -360.0 < r <= 0.0
    ensures 0.0 <= x < 360.0 ==> r == x
    ensures 360.0 <= x < 720.0 ==> r == x - 360.0
  {
    var q := x / 360.0;
    var t := if q >= 0.0 then q.Floor else -((-q).Floor);
    x - 360.0 * t as real
  }

  /** Adding a full turn to a non-negative hue does not change its remainder. */
  lemma {:induction false} Mod360Periodic(x: real)
    requires 0.0 <= x
    ensures Mod360(x + 360.0) == Mod360(x)
  {
    var q := x / 360.0;
    assert (x + 360.0) / 360.0 == q + 1.0;
    assert (q + 1.0).Floor == q.Floor + 1;
  }

  /** Two non-negative hues less than a full turn apart, but not equal, have different remainders. */
  lemma {:induction false} Mod360Separates(x: real, y: real)
    requires 0.0 <= x < y < x + 360.0
    ensures Mod360(x) != Mod360(y)
  {
    var a := (x / 360.0).Floor;
    var b := (y / 360.0).Floor;
    assert Mod360(x) == x - 360.0 * a as real;
    assert Mod360(y) == y - 360.0 * b as real;
    var k := b - a;
    if k <= 0 {
      assert 360.0 * k as real <= 0.0;
    } else {
      assert 360.0 * k as real >= 360.0;
    }
    assert Mod360(y) - Mod360(x) == (y - x) - 360.0 * k as real;
  }

  // ---------------------------------------------------------------- swatch scoring

  /** The WCAG 2.x grade: AAA from 7:1 (success criterion 1.4.6), AA from 4.5:1 (1.4.3). */
  function Classify(contrast: real): (a: Accessibility)
    ensures a == AAA <==> contrast >= MinContrastAAA
    ensures a == AA <==> MinContrastAA <= contrast < MinContrastAAA
    ensures a == Fail <==> contrast < MinContrastAA
  {
    if contrast >= MinContrastAAA then AAA
    else if contrast >= MinContrastAA then AA
    else Fail
  }

  /** The thresholds are hard cut-offs: exactly 7 is AAA, exactly 4.5 is AA, just below 4.5 fails. */
  lemma ContrastBoundaries()
    ensures Classify(7.0) == AAA && Classify(6.99999) == AA
    ensures Classify(4.5) == AA && Classify(4.49999) == Fail
  {
  }

  /** The simulated colour of `colorHex` under each of the nine deficiencies. */
  function DeficiencyMap(ops: Ops, colorHex: Hex): (m: map<Deficiency, Hex>)
    ensures forall d :: d in m && m[d] == SimulateColorBlindness(ops, colorHex, Name(d))
  {
    EveryDeficiencyListed();
    map d | d in VisionDeficiencyTypes :: SimulateColorBlindness(ops, colorHex, Name(d))
  }

  lemma EveryDeficiencyListed()
    ensures forall d :: d in VisionDeficiencyTypes
  {
    forall d: Deficiency
      ensures d in VisionDeficiencyTypes
    {
      DeficiencyTypesComplete(d);
    }
  }

  /**
   * The swatch generateColorSwatch builds for a colour: the text colour is the one of white and
   * black with the larger contrast (white on a tie), `contrast` is that larger contrast, the grade
   * follows it, all nine deficiency entries are filled and `value` is the colour verbatim.
   */
  function Swatch(ops: Ops, colorHex: Hex): (s: ColorSwatch)
    ensures s.value == colorHex
    ensures s.textColor == Some(White) || s.textColor == Some(Black)
    ensures s.textColor == Some(White) <==> ops.contrast(colorHex, White) >= ops.contrast(colorHex, Black)
    ensures s.contrast == ops.contrast(colorHex, s.textColor.value)
    ensures s.contrast >= ops.contrast(colorHex, White) && s.contrast >= ops.contrast(colorHex, Black)
    ensures Valid(ops) ==> 1.0 <= s.contrast <= 21.0
    ensures s.accessibility == Classify(s.contrast)
    ensures s.visionDeficiency == Some(DeficiencyMap(ops, colorHex))
  {
    var contrastWhite := ops.contrast(colorHex, White);
    var contrastBlack := ops.contrast(colorHex, Black);
    var best := if contrastWhite >= contrastBlack then White else Black;
    var contrast := ops.contrast(colorHex, best);
    ColorSwatch(colorHex, contrast, Classify(contrast), Some(best), Some(DeficiencyMap(ops, colorHex)))
  }

  /**
   * generateColorSwatch: `hex || chroma.random().hex()`, then scoring; the deficiency entries are
   * filled one type at a time.
   */
  method GenerateColorSwatch(ops: Ops, hex: Hex, draw: Hex) returns (s: ColorSwatch)
    ensures s == Swatch(ops, if hex != "" then hex else draw)
  {
    var colorHex := if hex != "" then hex else draw;
    var contrastWhite := ops.contrast(colorHex, White);
    var contrastBlack := ops.contrast(colorHex, Black);
    var bestTextColor := if contrastWhite >= contrastBlack then White else Black;
    var wcagContrastWithBestText := ops.contrast(colorHex, bestTextColor);
    var accessibility := Fail;
    if wcagContrastWithBestText >= MinContrastAAA {
      accessibility := AAA;
    } else if wcagContrastWithBestText >= MinContrastAA {
      accessibility := AA;
    }
    var visionDeficiencies: map<Deficiency, Hex> := map[];
    var i := 0;
    while i < |VisionDeficiencyTypes|
      invariant 0 <= i <= |VisionDeficiencyTypes|
      invariant forall d :: d in visionDeficiencies <==> d in VisionDeficiencyTypes[..i]
      invariant forall d :: d in visionDeficiencies ==>
                  visionDeficiencies[d] == SimulateColorBlindness(ops, colorHex, Name(d))
    {
      var t := VisionDeficiencyTypes[i];
      visionDeficiencies := visionDeficiencies[t := SimulateColorBlindness(ops, colorHex, Name(t))];
      i := i + 1;
    }
    assert VisionDeficiencyTypes[..i] == VisionDeficiencyTypes;
    assert visionDeficiencies == DeficiencyMap(ops, colorHex);
    s := ColorSwatch(colorHex, wcagContrastWithBestText, accessibility, Some(bestTextColor),
                     Some(visionDeficiencies));
  }

  // ---------------------------------------------------------------- invert and complement

  /** Each channel v becomes 255 - v. */
  function InvertRgb(c: Rgb): (r: Rgb)
    ensures ChannelsInRange(c) ==> ChannelsInRange(r)
  {
    Rgb(255 - c.r, 255 - c.g, 255 - c.b)
  }

  lemma InvertRgbInvolution(c: Rgb)
    ensures InvertRgb(InvertRgb(c)) == c
  {
  }

  /** invertColor: a colour chroma cannot parse comes back unchanged. */
  function InvertColor(ops: Ops, hex: Hex): (r: Hex)
    ensures ops.parse(hex).None? ==> r == hex
    ensures ops.parse(hex).Some? ==> r == ops.format(InvertRgb(ops.parse(hex).value))
  {
    match ops.parse(hex)
    case None => hex
    case Some(rgb) => ops.format(InvertRgb(rgb))
  }

  /** chroma formats an in-range triple to a hex string that parses back to that triple. */
  ghost predicate FormatRoundTrips(ops: Ops) {
    forall c :: ChannelsInRange(c) ==> ops.parse(ops.format(c)) == Some(c)
  }

  /**
   * Inverting twice gives back the colour, in chroma's normal hex form, whenever formatting
   * round-trips; and every inverted channel stays in [0, 255].
   */
  lemma {:induction false} InvertColorTwice(ops: Ops, hex: Hex, c: Rgb)
    requires Valid(ops) && FormatRoundTrips(ops)
    requires ops.parse(hex) == Some(c)
    ensures ChannelsInRange(InvertRgb(c))
    ensures ops.parse(InvertColor(ops, hex)) == Some(InvertRgb(c))
    ensures InvertColor(ops, InvertColor(ops, hex)) == ops.format(c)
  {
    assert ChannelsInRange(c);
    var once := InvertColor(ops, hex);
    assert once == ops.format(InvertRgb(c));
    assert ops.parse(once) == Some(InvertRgb(c));
    InvertRgbInvolution(c);
  }

  /** The complementary LCH hue. */
  function ComplementaryHue(h: real): (r: real)
    ensures 0.0 <= h ==> 0.0 <= r < 360.0
  {
    Mod360(h + 180.0)
  }

  /** Taking the complementary hue twice gives back every hue in [0, 360). */
  lemma ComplementaryHueInvolution(h: real)
    requires 0.0 <= h < 360.0
    ensures ComplementaryHue(ComplementaryHue(h)) == h
    ensures ComplementaryHue(h) == h + 180.0 || ComplementaryHue(h) == h - 180.0
  {
    if h < 180.0 {
      assert ComplementaryHue(h) == h + 180.0;
    } else {
      assert ComplementaryHue(h) == h - 180.0;
    }
  }

  /** The achromatic fallback: LCH lightness l becomes 100 - l, an involution. */
  function ComplementaryLightness(l: real): (r: real)
    ensures 0.0 <= l <= 100.0 ==> 0.0 <= r <= 100.0
  {
    100.0 - l
  }

  /** Mirroring the lightness twice gives it back. */
  lemma ComplementaryLightnessInvolution(l: real)
    ensures ComplementaryLightness(ComplementaryLightness(l)) == l
  {
  }

  /**
   * _getComplementaryColor: a chromatic colour gets the opposite LCH hue, an achromatic one the
   * mirrored lightness, and a colour chroma cannot parse is replaced by a random colour.
   */
  function GetComplementaryColor(ops: Ops, colorHex: Hex, fallback: Hex): (r: Hex)
    ensures ops.parse(colorHex).None? ==> r == fallback
    ensures ops.parse(colorHex).Some? && ops.lchHue(colorHex).Some? ==>
              r == ops.setLchHue(colorHex, ComplementaryHue(ops.lchHue(colorHex).value))
    ensures ops.parse(colorHex).Some? && ops.lchHue(colorHex).None? ==>
              r == ops.setLchLightness(colorHex, ComplementaryLightness(ops.lchLightness(colorHex)))
  {
    match ops.parse(colorHex)
    case None => fallback
    case Some(_) =>
      match ops.lchHue(colorHex)
      case None => ops.setLchLightness(colorHex, 100.0 - ops.lchLightness(colorHex))
      case Some(h) => ops.setLchHue(colorHex, Mod360(h + 180.0))
  }

  // ---------------------------------------------------------------- key colours

  function MaxZero(n: int): nat {
    if n <= 0 then 0 else n
  }

  /**
   * _distributeKeyColors: nothing for n <= 0; n random colours without keys; the first key for
   * n = 1; the first n keys when there are enough; otherwise n colours interpolated through all
   * keys. The result has n colours (none for n <= 0) whenever chroma's scale does.
   */
  function DistributeKeyColors(ops: Ops, n: int, keys: seq<Hex>, draw: nat -> Hex): (r: seq<Hex>)
    ensures n <= 0 ==> r == []
    ensures n > 0 && keys == [] ==> r == seq(n, i requires 0 <= i => draw(i))
    ensures n > 0 && keys != [] && n <= |keys| ==> r == keys[..n]
    ensures 1 < n && 0 < |keys| < n ==> r == ops.scale(keys, n)
    ensures Valid(ops) ==> |r| == MaxZero(n)
  {
    if n <= 0 then []
    else if |keys| == 0 then seq(n, i requires 0 <= i => draw(i))
    else if n == 1 then [keys[0]]
    else if n <= |keys| then keys[..n]
    else ops.scale(keys, n)
  }

  /** The achromatic fallback's lightness offset of step i of n: evenly spread over [-width/2, width/2]. */
  function SpreadShift(i: int, n: int, width: real): real {
    if n > 1 then (i as real / (n - 1) as real - 0.5) * width else 0.0
  }

  /** The spread stays within half the width either side of the seed and is symmetric about it. */
  lemma {:induction false} SpreadShiftBounds(i: int, n: int, width: real)
    requires 0 <= i < n && 0.0 <= width
    ensures -width / 2.0 <= SpreadShift(i, n, width) <= width / 2.0
    ensures SpreadShift(n - 1 - i, n, width) == -SpreadShift(i, n, width)
    ensures SpreadShift(0, n, width) == if n > 1 then -width / 2.0 else 0.0
  {
    if n > 1 {
      var d := (n - 1) as real;
      FractionBounds(i as real, d);
      DivSum(i as real, (n - 1 - i) as real, d);
      assert (i as real + (n - 1 - i) as real) / d == 1.0;
      HalfWindow(i as real / d, (n - 1 - i) as real / d, width);
    }
  }

  lemma FractionBounds(a: real, d: real)
    requires 0.0 <= a <= d && 0.0 < d
    ensures 0.0 <= a / d <= 1.0
  {
  }

  lemma DivSum(a: real, b: real, d: real)
    requires d != 0.0
    ensures a / d + b / d == (a + b) / d
  {
    var p := a / d;
    var q := b / d;
    var r := (a + b) / d;
    assert p * d == a;
    assert q * d == b;
    assert r * d == a + b;
    assert (p + q - r) * d == p * d + q * d - r * d;
  }

  lemma HalfWindow(f: real, g: real, width: real)
    requires 0.0 <= f <= 1.0 && f + g == 1.0 && 0.0 <= width
    ensures -width / 2.0 <= (f - 0.5) * width <= width / 2.0
    ensures (g - 0.5) * width == -((f - 0.5) * width)
  {
    assert (f - 0.5) * width <= 0.5 * width;
    assert -0.5 * width <= (f - 0.5) * width;
  }

  lemma MulNonneg(a: real, b: real)
    requires 0.0 <= a && 0.0 <= b
    ensures 0.0 <= a * b
  {
  }

  lemma SubMul(a: real, b: real, c: real)
    ensures a * c - b * c == (a - b) * c
  {
  }

  lemma LinearBound(a: real, b: real, step: real, total: real)
    requires 0.0 <= a && 0.0 < b && 0.0 < step && a + b + step == total
    ensures b < total
  {
  }

  /** k steps, fewer than s, of a turn divided into s steps stay within the turn. */
  lemma {:induction false} FewerStepsThanTurn(k: real, s: real, step: real, turn: real)
    requires 1.0 <= k <= s - 1.0 && step * s == turn && step > 0.0
    ensures 0.0 < k * step < turn
  {
    var a := (s - 1.0 - k) * step;
    var b := k * step;
    MulNonneg(s - 1.0 - k, step);
    assert 0.0 < b;
    assert a + b + step == step * s;
    LinearBound(a, b, step, step * s);
  }

  /** Math.max(0, Math.min(100, x)). */
  function Clamp100(x: real): (r: real)
    ensures 0.0 <= r <= 100.0
    ensures 0.0 <= x <= 100.0 ==> r == x
  {
    if x < 0.0 then 0.0 else if x > 100.0 then 100.0 else x
  }

  /** The colour a hue offset turns the seed into: the seed itself when it has no hue. */
  function HueOffsetKeyColors(ops: Ops, startColorHex: Hex, hueOffsets: seq<real>): (keys: seq<Hex>)
    ensures |keys| == |hueOffsets|
  {
    var baseHue := ops.hslHue(startColorHex);
    seq(|hueOffsets|, i requires 0 <= i < |hueOffsets| =>
      if baseHue.None? then ops.normalize(startColorHex)
      else ops.setHslHue(startColorHex, Mod360(baseHue.value + hueOffsets[i] + 360.0)))
  }

  /** _generatePaletteFromHueOffsets. */
  function PaletteFromHueOffsets(ops: Ops, n: int, startColorHex: Hex, hueOffsets: seq<real>, draw: nat -> Hex): (r: seq<Hex>)
    ensures Valid(ops) ==> |r| == MaxZero(n)
  {
    DistributeKeyColors(ops, n, HueOffsetKeyColors(ops, startColorHex, hueOffsets), draw)
  }

  function NgonSides(numSides: int): (sides: int)
    ensures sides >= 1
  {
    if numSides <= 0 then 1 else numSides
  }

  /** The hue step between the corners of a regular polygon with the given number of sides. */
  function NgonStep(sides: int): (step: real)
    requires sides >= 1
    ensures step > 0.0 && step * sides as real == 360.0
  {
    360.0 / sides as real
  }

  /** The hue of the i-th corner of a regular polygon whose first corner is at h. */
  function NgonHue(h: real, step: real, i: int): real {
    Mod360(NgonAngle(h, step, i))
  }

  function NgonAngle(h: real, step: real, i: int): real {
    h + i as real * step + 360.0
  }

  /** The i-th key colour of an n-gon: a hue step, or a lightness step for a seed without hue. */
  function NgonKeyColor(ops: Ops, startColorHex: Hex, sides: int, i: int): Hex
    requires sides >= 1
  {
    match ops.hslHue(startColorHex)
    case None =>
      ops.setLchLightness(startColorHex, Clamp100(ops.lchLightness(startColorHex) + SpreadShift(i, sides, 30.0)))
    case Some(h) => ops.setHslHue(startColorHex, NgonHue(h, NgonStep(sides), i))
  }

  function NgonKeyColors(ops: Ops, startColorHex: Hex, numSides: int): (keys: seq<Hex>)
    ensures |keys| == NgonSides(numSides)
  {
    var sides := NgonSides(numSides);
    seq(sides, i requires 0 <= i < sides => NgonKeyColor(ops, startColorHex, sides, i))
  }

  /**
   * The corners of an n-gon request n distinct hues in [0, 360), the first of them the seed's
   * own hue.
   */
  lemma {:induction false} NgonHuesDistinct(h: real, sides: int, i: int, j: int)
    requires 0.0 <= h < 360.0 && sides >= 1
    requires 0 <= i < j < sides
    ensures 0.0 <= NgonHue(h, NgonStep(sides), i) < 360.0
    ensures NgonHue(h, NgonStep(sides), 0) == h
    ensures NgonHue(h, NgonStep(sides), i) != NgonHue(h, NgonStep(sides), j)
  {
    var step := NgonStep(sides);
    NgonAnglesWithinTurn(h, step, sides, i, j);
    assert NgonAngle(h, step, 0) == h + 360.0;
    Mod360Separates(NgonAngle(h, step, i), NgonAngle(h, step, j));
  }

  /** Two corners' unreduced angles are less than a full turn apart. */
  lemma {:induction false} NgonAnglesWithinTurn(h: real, step: real, sides: int, i: int, j: int)
    requires 0.0 <= h && 0.0 < step && step * sides as real == 360.0
    requires 0 <= i < j < sides
    ensures 0.0 <= NgonAngle(h, step, i)
    ensures NgonAngle(h, step, i) < NgonAngle(h, step, j) < NgonAngle(h, step, i) + 360.0
  {
    StepGap(step, sides, i, j);
  }

  lemma {:induction false} StepGap(step: real, sides: int, i: int, j: int)
    requires 0.0 < step && step * sides as real == 360.0
    requires 0 <= i < j < sides
    ensures 0.0 <= i as real * step
    ensures 0.0 < j as real * step - i as real * step < 360.0
  {
    FewerStepsThanTurn((j - i) as real, sides as real, step, 360.0);
    MulNonneg(i as real, step);
    SubMul(j as real, i as real, step);
    assert j as real - i as real == (j - i) as real;
  }

  /** _generateNgonKeyColors: pushes one key colour per side. */
  method GenerateNgonKeyColors(ops: Ops, startColorHex: Hex, numSides: int) returns (keyColors: seq<Hex>)
    ensures keyColors == NgonKeyColors(ops, startColorHex, numSides)
  {
    var sides := numSides;
    if sides <= 0 {
      sides := 1;
    }
    var baseHue := ops.hslHue(startColorHex);
    keyColors := [];
    var baseLightness := ops.lchLightness(startColorHex);
    var i := 0;
    while i < sides
      invariant 0 <= i <= sides && sides == NgonSides(numSides)
      invariant |keyColors| == i
      invariant forall k :: 0 <= k < i ==> keyColors[k] == NgonKeyColor(ops, startColorHex, sides, k)
    {
      if baseHue.None? {
        var lShift := SpreadShift(i, sides, 30.0);
        keyColors := keyColors + [ops.setLchLightness(startColorHex, Clamp100(baseLightness + lShift))];
      } else {
        var newHue := NgonHue(baseHue.value, NgonStep(sides), i);
        keyColors := keyColors + [ops.setHslHue(startColorHex, newHue)];
      }
      i := i + 1;
    }
  }

  // ---------------------------------------------------------------- generators

  /** The arguments every generator receives. */
  datatype GeneratorParams = GeneratorParams(
    paletteSize: int,
    startColorHex: Hex,
    endColorHex: Option<Hex>,
    currentHexPalette: Option<seq<Hex>>)

  /** The hue step of an analogous palette of n colours: the 60-degree window in n - 1 steps. */
  function AnalogousStep(n: int): (step: real)
    ensures n > 1 ==> step > 0.0 && step * (n - 1) as real == DefaultAnalogousHueRange
    ensures n <= 1 ==> step == 0.0
  {
    if n > 1 then DefaultAnalogousHueRange / (n - 1) as real else 0.0
  }

  /** The analogous hue offset of step i of n from the seed. */
  function AnalogousOffset(n: int, i: int): real {
    -(DefaultAnalogousHueRange / 2.0) + i as real * AnalogousStep(n)
  }

  /** The analogous window is centred on the seed: it runs from -30 to +30 degrees, symmetrically. */
  lemma {:induction false} AnalogousWindow(n: int, i: int)
    requires 1 < n && 0 <= i < n
    ensures AnalogousOffset(n, 0) == -30.0
    ensures AnalogousOffset(n, n - 1) == 30.0
    ensures -30.0 <= AnalogousOffset(n, i) <= 30.0
    ensures AnalogousOffset(n, n - 1 - i) == -AnalogousOffset(n, i)
  {
    var step := AnalogousStep(n);
    MulNonneg(i as real, step);
    MulNonneg((n - 1 - i) as real, step);
    SubMul((n - 1) as real, i as real, step);
    assert ((n - 1) as real - i as real) == (n - 1 - i) as real;
  }

  function AnalogousColor(ops: Ops, startColorHex: Hex, n: int, i: int): Hex {
    match ops.hslHue(startColorHex)
    case None =>
      ops.setLchLightness(startColorHex, Clamp100(ops.lchLightness(startColorHex) + SpreadShift(i, n, 30.0)))
    case Some(h) => ops.setHslHue(startColorHex, Mod360(h + AnalogousOffset(n, i) + 360.0))
  }

  function AnalogousPalette(ops: Ops, n: int, startColorHex: Hex): (r: seq<Hex>)
    ensures |r| == MaxZero(n)
  {
    if n <= 0 then [] else seq(n, i => AnalogousColor(ops, startColorHex, n, i))
  }

  /** generateAnalogousPalette: one colour per step, each pushed in turn. */
  method GenerateAnalogousPalette(ops: Ops, p: GeneratorParams) returns (colors: seq<Hex>)
    ensures colors == AnalogousPalette(ops, p.paletteSize, p.startColorHex)
  {
    var paletteSize := p.paletteSize;
    if paletteSize <= 0 {
      return [];
    }
    var baseColor := p.startColorHex;
    var baseHue := ops.hslHue(baseColor);
    colors := [];
    var baseLightness := ops.lchLightness(baseColor);
    var i := 0;
    while i < paletteSize
      invariant 0 <= i <= paletteSize && |colors| == i
      invariant forall k :: 0 <= k < i ==> colors[k] == AnalogousColor(ops, baseColor, paletteSize, k)
    {
      if baseHue.None? {
        var lShift := SpreadShift(i, paletteSize, 30.0);
        colors := colors + [ops.setLchLightness(baseColor, Clamp100(baseLightness + lShift))];
      } else {
        var newHue := Mod360(baseHue.value + AnalogousOffset(paletteSize, i) + 360.0);
        colors := colors + [ops.setHslHue(baseColor, newHue)];
      }
      i := i + 1;
    }
  }

  /** generateMonochromaticPalette. */
  function MonochromaticPalette(ops: Ops, n: int, startColorHex: Hex): (r: seq<Hex>)
    ensures n == 1 ==> r == [startColorHex]
    ensures Valid(ops) ==> |r| == MaxZero(n)
  {
    if n <= 0 then []
    else if n == 1 then [startColorHex]
    else if n == 2 then ops.scale([ops.darken(startColorHex, 2.0), ops.brighten(startColorHex, 2.0)], n)
    else ops.scale([ops.setLchLightness(startColorHex, MonochromaticLchLightnessMin),
                    ops.setLchLightness(startColorHex, MonochromaticLchLightnessMax)], n)
  }

  /** generateComplementaryPalette: the seed first; the given end colour or the complement last. */
  function ComplementaryPalette(ops: Ops, p: GeneratorParams, rnd: Random): (r: seq<Hex>)
    ensures p.paletteSize == 1 ==> r == [p.startColorHex]
    ensures Valid(ops) ==> |r| == MaxZero(p.paletteSize)
  {
    var n := p.paletteSize;
    if n <= 0 then []
    else
      var complementHex := Or(p.endColorHex, GetComplementaryColor(ops, p.startColorHex, rnd.complement));
      if n == 1 then [p.startColorHex]
      else ops.scale([p.startColorHex, complementHex], n)
  }

  /** The three key colours of a split-complementary palette. */
  function SplitComplementaryKeys(ops: Ops, startColorHex: Hex): (keys: seq<Hex>)
    ensures |keys| == 3 && keys[0] == ops.normalize(startColorHex)
  {
    var baseHue := ops.hslHue(startColorHex);
    var baseLightness := ops.lchLightness(startColorHex);
    match baseHue
    case None =>
      [ops.normalize(startColorHex),
       ops.setLchLightness(startColorHex, if baseLightness - 15.0 < 0.0 then 0.0 else baseLightness - 15.0),
       ops.setLchLightness(startColorHex, if baseLightness + 15.0 > 100.0 then 100.0 else baseLightness + 15.0)]
    case Some(h) =>
      var complementHue := Mod360(h + 180.0 + 360.0);
      var hue2 := Mod360(complementHue - HueSplitComplementaryOffset + 360.0);
      var hue3 := Mod360(complementHue + HueSplitComplementaryOffset + 360.0);
      [ops.normalize(startColorHex), ops.setHslHue(startColorHex, hue2), ops.setHslHue(startColorHex, hue3)]
  }

  /** The split-complementary hues lie 30 degrees either side of the complement. */
  lemma {:induction false} SplitComplementaryHues(h: real)
    requires 0.0 <= h < 360.0
    ensures Mod360(h + 180.0 + 360.0) == ComplementaryHue(h)
    ensures var c := ComplementaryHue(h);
            Mod360(c - HueSplitComplementaryOffset + 360.0) == (if c >= 30.0 then c - 30.0 else c + 330.0) &&
            Mod360(c + HueSplitComplementaryOffset + 360.0) == (if c < 330.0 then c + 30.0 else c - 330.0)
  {
    Mod360Periodic(h + 180.0);
    var c := ComplementaryHue(h);
    Mod360Periodic(c + 30.0);
  }

  /** generateSplitComplementaryPalette. */
  function SplitComplementaryPalette(ops: Ops, n: int, startColorHex: Hex, draw: nat -> Hex): (r: seq<Hex>)
    ensures Valid(ops) ==> |r| == MaxZero(n)
  {
    DistributeKeyColors(ops, n, SplitComplementaryKeys(ops, startColorHex), draw)
  }

  /** generateCirclePalette: the n-gon with as many corners as colours. */
  method GenerateCirclePalette(ops: Ops, p: GeneratorParams) returns (r: seq<Hex>)
    ensures r == (if p.paletteSize <= 0 then [] else NgonKeyColors(ops, p.startColorHex, p.paletteSize))
    ensures |r| == MaxZero(p.paletteSize)
  {
    if p.paletteSize <= 0 {
      return [];
    }
    r := GenerateNgonKeyColors(ops, p.startColorHex, p.paletteSize);
  }

  /** The i-th colour of a star palette. */
  function StarColor(ops: Ops, startColorHex: Hex, n: int, i: int): Hex {
    var isComplementAlternate := i % 2 == 1;
    match ops.hslHue(startColorHex)
    case None =>
      var lVariation := if n > 1 then (i as real / (n - 1) as real - 0.5) * 40.0 else 0.0;
      var newLightness := ops.lchLightness(startColorHex) + (if isComplementAlternate then -lVariation else lVariation);
      ops.setLchLightness(startColorHex, Clamp100(newLightness))
    case Some(h) =>
      var newHue := StarHue(h, i);
      var shifted := ops.setHslHue(startColorHex, newHue);
      var relit := ops.setHslLightness(shifted, ops.hslLightness(shifted) * (if isComplementAlternate then 0.85 else 1.05));
      ops.saturate(relit, if isComplementAlternate then 0.2 else -0.1)
  }

  /** The hue a star palette requests at step i. */
  function StarHue(h: real, i: int): real {
    if i % 2 == 1 then Mod360(h + 180.0 + 360.0) else Mod360(h + (i as real / 2.0) * 20.0 + 360.0)
  }

  /**
   * A star palette alternates: odd steps take the complementary hue, even steps 2k move forward
   * by 20k degrees from the seed.
   */
  lemma {:induction false} StarAlternates(h: real, i: int)
    requires 0.0 <= h < 360.0 && 0 <= i
    ensures i % 2 == 1 ==> StarHue(h, i) == ComplementaryHue(h)
    ensures i % 2 == 0 ==> StarHue(h, i) == Mod360(h + (i / 2) as real * 20.0 + 360.0)
    ensures 0.0 <= StarHue(h, i) < 360.0
  {
    SplitComplementaryHues(h);
    if i % 2 == 0 {
      assert i as real / 2.0 == (i / 2) as real;
    }
  }

  function StarPalette(ops: Ops, n: int, startColorHex: Hex): (r: seq<Hex>)
    ensures |r| == MaxZero(n)
  {
    if n <= 0 then [] else seq(n, i => StarColor(ops, startColorHex, n, i))
  }

  /** generateStarPalette: one colour per step, each pushed in turn. */
  method GenerateStarPalette(ops: Ops, p: GeneratorParams) returns (colors: seq<Hex>)
    ensures colors == StarPalette(ops, p.paletteSize, p.startColorHex)
  {
    var paletteSize := p.paletteSize;
    if paletteSize <= 0 {
      return [];
    }
    var baseColor := p.startColorHex;
    var baseHue := ops.hslHue(baseColor);
    var baseLightness := ops.lchLightness(baseColor);
    colors := [];
    var i := 0;
    while i < paletteSize
      invariant 0 <= i <= paletteSize && |colors| == i
      invariant forall k :: 0 <= k < i ==> colors[k] == StarColor(ops, baseColor, paletteSize, k)
    {
      var isComplementAlternate := i % 2 == 1;
      var newColor: Hex;
      if baseHue.None? {
        var lVariation := if paletteSize > 1 then (i as real / (paletteSize - 1) as real - 0.5) * 40.0 else 0.0;
        var newLightness := baseLightness + (if isComplementAlternate then -lVariation else lVariation);
        newColor := ops.setLchLightness(baseColor, Clamp100(newLightness));
      } else {
        var newHue: real;
        if isComplementAlternate {
          newHue := Mod360(baseHue.value + 180.0 + 360.0);
        } else {
          newHue := Mod360(baseHue.value + (i as real / 2.0) * 20.0 + 360.0);
        }
        newColor := ops.setHslHue(baseColor, newHue);
        newColor := ops.setHslLightness(newColor, ops.hslLightness(newColor) * (if isComplementAlternate then 0.85 else 1.05));
        newColor := ops.saturate(newColor, if isComplementAlternate then 0.2 else -0.1);
      }
      colors := colors + [newColor];
      i := i + 1;
    }
  }

  /** The i-th colour custom adds after the last existing one: 15 degrees more hue per step. */
  function CustomExtraColor(ops: Ops, lastColor: Hex, i: nat): Hex {
    ops.saturate(ops.darken(ops.shiftHslHue(lastColor, (i + 1) as real * 15.0), i as real * 0.1), 0.1)
  }

  /**
   * generateCustomPalette: a current palette at least as long as asked for is truncated; a
   * shorter one is kept as a prefix and extended; without one, seed and brightened complement
   * are interpolated.
   */
  function CustomPalette(ops: Ops, p: GeneratorParams, rnd: Random): (r: seq<Hex>)
    ensures var cur := p.currentHexPalette.GetOr([]);
            p.paletteSize > 0 && 0 < |cur| ==>
              (p.paletteSize <= |cur| ==> r == cur[..p.paletteSize]) &&
              (|cur| < p.paletteSize ==> |r| == p.paletteSize && r[..|cur|] == cur)
    ensures Valid(ops) ==> |r| == MaxZero(p.paletteSize)
  {
    var n := p.paletteSize;
    var current := p.currentHexPalette.GetOr([]);
    if n <= 0 then []
    else if |current| > 0 then
      if |current| >= n then current[..n]
      else
        var lastColor := if current[|current| - 1] != "" then current[|current| - 1] else p.startColorHex;
        current + seq(n - |current|, i requires 0 <= i => CustomExtraColor(ops, lastColor, i))
    else
      var endCustomColor := ops.brighten(GetComplementaryColor(ops, p.startColorHex, rnd.complement), 1.0);
      ops.scale([p.startColorHex, endCustomColor], n)
  }

  /** generateGradientPalette: from the seed to the given end colour, or to the complement. */
  function GradientPalette(ops: Ops, p: GeneratorParams, rnd: Random): (r: seq<Hex>)
    ensures Valid(ops) ==> |r| == MaxZero(p.paletteSize)
  {
    if p.paletteSize <= 0 then []
    else
      var effectiveEndColor := Or(p.endColorHex, GetComplementaryColor(ops, p.startColorHex, rnd.complement));
      ops.scale([p.startColorHex, effectiveEndColor], p.paletteSize)
  }

  /** The generator _createNgonPaletteGenerator(numSides) returns. */
  function NgonPalette(ops: Ops, numSides: int, n: int, startColorHex: Hex, draw: nat -> Hex): (r: seq<Hex>)
    ensures Valid(ops) ==> |r| == MaxZero(n)
  {
    DistributeKeyColors(ops, n, NgonKeyColors(ops, startColorHex, numSides), draw)
  }

  method GenerateNgonPalette(ops: Ops, numSides: int, p: GeneratorParams, draw: nat -> Hex) returns (r: seq<Hex>)
    ensures r == NgonPalette(ops, numSides, p.paletteSize, p.startColorHex, draw)
  {
    var keys := GenerateNgonKeyColors(ops, p.startColorHex, numSides);
    r := DistributeKeyColors(ops, p.paletteSize, keys, draw);
  }

  /** The generator the paletteGenerators map holds for each palette type. */
  function Generate(ops: Ops, t: PaletteType, p: GeneratorParams, rnd: Random): (r: seq<Hex>)
    ensures Valid(ops) ==> |r| == MaxZero(p.paletteSize)
  {
    var n := p.paletteSize;
    var start := p.startColorHex;
    match t
    case Analogous => AnalogousPalette(ops, n, start)
    case Monochromatic => MonochromaticPalette(ops, n, start)
    case Complementary => ComplementaryPalette(ops, p, rnd)
    case Triadic => PaletteFromHueOffsets(ops, n, start, [0.0, HueStepTriadic, HueStepTriadic * 2.0], rnd.keys)
    case Tetradic => PaletteFromHueOffsets(ops, n, start, HueTetradicOffsets, rnd.keys)
    case SplitComplementary => SplitComplementaryPalette(ops, n, start, rnd.keys)
    case Square =>
      PaletteFromHueOffsets(ops, n, start, [0.0, HueStepSquare, HueStepSquare * 2.0, HueStepSquare * 3.0], rnd.keys)
    case Rectangle => PaletteFromHueOffsets(ops, n, start, HueRectangleOffsets, rnd.keys)
    case Circle => if n <= 0 then [] else NgonKeyColors(ops, start, n)
    case Triangle => PaletteFromHueOffsets(ops, n, start, [0.0, HueStepTriadic, HueStepTriadic * 2.0], rnd.keys)
    case Pentagon => NgonPalette(ops, 5, n, start, rnd.keys)
    case Hexagon => NgonPalette(ops, 6, n, start, rnd.keys)
    case Heptagon => NgonPalette(ops, 7, n, start, rnd.keys)
    case Octagon => NgonPalette(ops, 8, n, start, rnd.keys)
    case Star => StarPalette(ops, n, start)
    case Gradient => GradientPalette(ops, p, rnd)
    case Custom => CustomPalette(ops, p, rnd)
  }

  /**
   * Every generator returns exactly paletteSize colours (none for a size <= 0), provided chroma's
   * scale returns as many colours as it is asked for.
   */
  lemma GeneratorLength(ops: Ops, t: PaletteType, p: GeneratorParams, rnd: Random)
    requires Valid(ops)
    ensures |Generate(ops, t, p, rnd)| == MaxZero(p.paletteSize)
  {
  }

  /** Triangle is an alias of triadic, rectangle of tetradic. */
  lemma GeneratorAliases(ops: Ops, p: GeneratorParams, rnd: Random)
    ensures Generate(ops, Triangle, p, rnd) == Generate(ops, Triadic, p, rnd)
    ensures Generate(ops, Rectangle, p, rnd) == Generate(ops, Tetradic, p, rnd)
  {
  }

  /** Looks the generator up in the map and runs it. */
  method RunGenerator(ops: Ops, t: PaletteType, p: GeneratorParams, rnd: Random) returns (raw: seq<Hex>)
    ensures raw == Generate(ops, t, p, rnd)
  {
    match t
    case Analogous => raw := GenerateAnalogousPalette(ops, p);
    case Circle => raw := GenerateCirclePalette(ops, p);
    case Pentagon => raw := GenerateNgonPalette(ops, 5, p, rnd.keys);
    case Hexagon => raw := GenerateNgonPalette(ops, 6, p, rnd.keys);
    case Heptagon => raw := GenerateNgonPalette(ops, 7, p, rnd.keys);
    case Octagon => raw := GenerateNgonPalette(ops, 8, p, rnd.keys);
    case Star => raw := GenerateStarPalette(ops, p);
    case _ => raw := Generate(ops, t, p, rnd);
  }

  // ---------------------------------------------------------------- generatePalette

  datatype GeneratePaletteOptions = GeneratePaletteOptions(
    paletteSize: int,
    lockedIndices: seq<int>,
    currentPalette: Option<seq<ColorSwatch>>,
    startColor: Option<Hex>,
    endColor: Option<Hex>,
    paletteType: Option<string>)

  /** The options the store's callers pass when they give only a size. */
  function SizeOnly(paletteSize: int): GeneratePaletteOptions {
    GeneratePaletteOptions(paletteSize, [], None, None, None, None)
  }

  /** The palette type is custom when none is given and when the name has no generator. */
  function SelectedType(opts: GeneratePaletteOptions): (t: PaletteType)
    ensures opts.paletteType.None? ==> t == Custom
    ensures opts.paletteType.Some? && ParsePaletteType(opts.paletteType.value).None? ==> t == Custom
    ensures opts.paletteType.Some? && ParsePaletteType(opts.paletteType.value).Some? ==>
              PaletteTypeName(t) == opts.paletteType.value
  {
    var name := opts.paletteType.GetOr("custom");
    match ParsePaletteType(name)
    case Some(t) => t
    case None => Custom
  }

  function Values(palette: seq<ColorSwatch>): (r: seq<Hex>)
    ensures |r| == |palette| && forall i :: 0 <= i < |r| ==> r[i] == palette[i].value
  {
    seq(|palette|, i requires 0 <= i < |palette| => palette[i].value)
  }

  /** The parameters generatePalette hands to the generator. */
  function GeneratorInputs(opts: GeneratePaletteOptions, rnd: Random): GeneratorParams {
    GeneratorParams(
      opts.paletteSize,
      Or(opts.startColor, rnd.start),
      opts.endColor,
      match opts.currentPalette
      case None => None
      case Some(palette) => Some(Values(palette)))
  }

  function RawColors(ops: Ops, opts: GeneratePaletteOptions, rnd: Random): seq<Hex> {
    Generate(ops, SelectedType(opts), GeneratorInputs(opts, rnd), rnd)
  }

  /** The colour at position i once a raw output of the wrong length has been padded or cut. */
  function AdjustedHex(raw: seq<Hex>, n: int, pad: nat -> Hex, i: nat): Hex {
    if |raw| == n && i < |raw| then raw[i]
    else if i < |raw| && raw[i] != "" then raw[i]
    else pad(i)
  }

  /** Position i keeps the current swatch: it is locked and the current palette has a swatch there. */
  predicate KeepsLocked(opts: GeneratePaletteOptions, i: nat) {
    i in opts.lockedIndices && opts.currentPalette.Some? && i < |opts.currentPalette.value|
  }

  /** The generator's output padded or cut to n colours, position by position. */
  function Adjusted(raw: seq<Hex>, n: nat, pad: nat -> Hex): (r: seq<Hex>)
    ensures |r| == n
    ensures forall k :: 0 <= k < n ==> r[k] == AdjustedHex(raw, n, pad, k)
  {
    seq(n, k requires 0 <= k < n => AdjustedHex(raw, n, pad, k))
  }

  /** The current swatch at each locked position it covers, the scored colour everywhere else. */
  function Merge(ops: Ops, opts: GeneratePaletteOptions, colors: seq<Hex>, rnd: Random): (r: seq<ColorSwatch>)
    ensures |r| == |colors|
    ensures forall i :: 0 <= i < |r| ==>
              r[i] == if KeepsLocked(opts, i) then opts.currentPalette.value[i]
                      else Swatch(ops, if colors[i] != "" then colors[i] else rnd.swatch(i))
  {
    seq(|colors|, i requires 0 <= i < |colors| =>
      if KeepsLocked(opts, i) then opts.currentPalette.value[i]
      else Swatch(ops, if colors[i] != "" then colors[i] else rnd.swatch(i)))
  }

  /** What generatePalette returns. */
  function Palette(ops: Ops, opts: GeneratePaletteOptions, rnd: Random): (r: seq<ColorSwatch>)
    ensures |r| == MaxZero(opts.paletteSize)
  {
    var n := opts.paletteSize;
    if n <= 0 then []
    else Merge(ops, opts, Adjusted(RawColors(ops, opts, rnd), n, rnd.pad), rnd)
  }

  /**
   * Every locked position that the current palette covers keeps its swatch verbatim; every other
   * position is the generator's colour there, scored. The padding never comes into play because
   * every generator returns the requested number of colours.
   */
  lemma {:induction false} PaletteLocksAndScores(ops: Ops, opts: GeneratePaletteOptions, rnd: Random, i: nat)
    requires Valid(ops) && i < opts.paletteSize
    ensures var r := Palette(ops, opts, rnd);
            var raw := RawColors(ops, opts, rnd);
            i < |raw| &&
            (KeepsLocked(opts, i) ==> r[i] == opts.currentPalette.value[i]) &&
            (!KeepsLocked(opts, i) ==> r[i] == Swatch(ops, if raw[i] != "" then raw[i] else rnd.swatch(i)))
  {
    var n := opts.paletteSize;
    var raw := RawColors(ops, opts, rnd);
    GeneratorLength(ops, SelectedType(opts), GeneratorInputs(opts, rnd), rnd);
    assert |raw| == n;
    assert AdjustedHex(raw, n, rnd.pad, i) == raw[i];
  }

  /**
   * With the default custom type and a current palette at least as long as asked for, the
   * palette keeps the current colours: each position has the current swatch's value.
   */
  lemma {:induction false} CustomKeepsCurrentValues(ops: Ops, opts: GeneratePaletteOptions, rnd: Random, i: nat)
    requires SelectedType(opts) == Custom
    requires opts.currentPalette.Some? && 0 < opts.paletteSize <= |opts.currentPalette.value|
    requires i < opts.paletteSize && opts.currentPalette.value[i].value != ""
    ensures Palette(ops, opts, rnd)[i].value == opts.currentPalette.value[i].value
  {
    var n := opts.paletteSize;
    var raw := RawColors(ops, opts, rnd);
    var cur := Values(opts.currentPalette.value);
    assert GeneratorInputs(opts, rnd).currentHexPalette == Some(cur);
    assert raw == CustomPalette(ops, GeneratorInputs(opts, rnd), rnd);
    assert raw == cur[..n];
    assert AdjustedHex(raw, n, rnd.pad, i) == cur[i];
    var r := Palette(ops, opts, rnd);
    if KeepsLocked(opts, i) {
      assert r[i] == opts.currentPalette.value[i];
    } else {
      assert r[i] == Swatch(ops, cur[i]);
    }
  }

  /** The pad loop of generatePalette: only an output of the wrong length is rebuilt. */
  method AdjustLength(rawHexColors: seq<Hex>, paletteSize: nat, pad: nat -> Hex) returns (colors: seq<Hex>)
    ensures colors == Adjusted(rawHexColors, paletteSize, pad)
  {
    if |rawHexColors| == paletteSize {
      return rawHexColors;
    }
    var tempColors: seq<Hex> := [];
    var i := 0;
    while i < paletteSize
      invariant 0 <= i <= paletteSize && |tempColors| == i
      invariant forall k :: 0 <= k < i ==> tempColors[k] == AdjustedHex(rawHexColors, paletteSize, pad, k)
    {
      tempColors := tempColors + [if i < |rawHexColors| && rawHexColors[i] != "" then rawHexColors[i] else pad(i)];
      i := i + 1;
    }
    colors := tempColors;
  }

  /** The lock-merge loop of generatePalette: current swatches at locked positions, scored colours elsewhere. */
  method MergeLocked(ops: Ops, opts: GeneratePaletteOptions, colors: seq<Hex>, rnd: Random) returns (finalPalette: seq<ColorSwatch>)
    ensures finalPalette == Merge(ops, opts, colors, rnd)
  {
    finalPalette := [];
    var i := 0;
    while i < |colors|
      invariant 0 <= i <= |colors| && |finalPalette| == i
      invariant forall k :: 0 <= k < i ==> finalPalette[k] == Merge(ops, opts, colors, rnd)[k]
    {
      var isLocked := i in opts.lockedIndices;
      if isLocked && opts.currentPalette.Some? && i < |opts.currentPalette.value| {
        finalPalette := finalPalette + [opts.currentPalette.value[i]];
      } else {
        var swatch := GenerateColorSwatch(ops, colors[i], rnd.swatch(i));
        finalPalette := finalPalette + [swatch];
      }
      i := i + 1;
    }
  }

  /**
   * generatePalette: runs the generator, pads or cuts its output to paletteSize position by
   * position, then takes the current swatch at each locked position and scores the rest.
   */
  method GeneratePalette(ops: Ops, opts: GeneratePaletteOptions, rnd: Random) returns (finalPalette: seq<ColorSwatch>)
    ensures finalPalette == Palette(ops, opts, rnd)
  {
    var paletteSize := opts.paletteSize;
    if paletteSize <= 0 {
      return [];
    }
    var generatorParams := GeneratorInputs(opts, rnd);
    var rawHexColors := RunGenerator(ops, SelectedType(opts), generatorParams, rnd);
    var colors := AdjustLength(rawHexColors, paletteSize, rnd.pad);
    finalPalette := MergeLocked(ops, opts, colors, rnd);
  }
}
