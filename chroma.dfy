/**
 * The chroma-js library as the palette engine sees it.
 *
 * chroma-js is foreign code: hex parsing and formatting, HSL/LCH conversions, WCAG luminance
 * contrast and LCH interpolation are floating-point colour science. The model does not interpret
 * them: every operation the engine calls is a field of `Ops`, a record of total functions that a
 * caller supplies, and `Valid` states the only facts the engine relies on.
 */
module Chroma {
  import opened Wrappers

  /** A colour as the engine passes it around: a CSS colour string, normally "#rrggbb". */
  type Hex = string

  /** An RGB triple as `chroma(hex).rgb()` returns it (channels rounded to integers). */
  datatype Rgb = Rgb(r: int, g: int, b: int)

  predicate ChannelsInRange(c: Rgb) {
    0 <= c.r <= 255 && 0 <= c.g <= 255 && 0 <= c.b <= 255
  }

  /**
   * The chroma-js operations used by the engine. A setter applied to a colour and followed by
   * `.hex()` is one field (for instance `baseColor.set("hsl.h", h).hex()` is `setHslHue(base, h)`).
   */
  datatype Ops = Ops(
    parse: Hex -> Option<Rgb>,           // chroma(hex).rgb(); None where chroma(hex) throws
    format: Rgb -> Hex,                  // chroma([r, g, b]).hex()
    normalize: Hex -> Hex,               // chroma(hex).hex()
    contrast: (Hex, Hex) -> real,        // chroma.contrast(a, b)
    hslHue: Hex -> Option<real>,         // chroma(hex).get("hsl.h"); None where it is NaN
    lchHue: Hex -> Option<real>,         // chroma(hex).get("lch.h"); None where it is NaN
    lchLightness: Hex -> real,           // chroma(hex).get("lch.l")
    hslLightness: Hex -> real,           // chroma(hex).get("hsl.l")
    setHslHue: (Hex, real) -> Hex,       // .set("hsl.h", h)
    shiftHslHue: (Hex, real) -> Hex,     // .set("hsl.h", "+d")
    setLchHue: (Hex, real) -> Hex,       // .set("lch.h", h)
    setLchLightness: (Hex, real) -> Hex, // .set("lch.l", l)
    setHslLightness: (Hex, real) -> Hex, // .set("hsl.l", l)
    darken: (Hex, real) -> Hex,          // .darken(amount)
    brighten: (Hex, real) -> Hex,        // .brighten(amount)
    saturate: (Hex, real) -> Hex,        // .saturate(amount)
    scale: (seq<Hex>, nat) -> seq<Hex>   // chroma.scale(keys).mode("lch").colors(n)
  )

  /** What chroma-js guarantees and the engine relies on. */
  ghost predicate Valid(ops: Ops) {
    && (forall h :: ops.parse(h).Some? ==> ChannelsInRange(ops.parse(h).value))
    && (forall a, b :: 1.0 <= ops.contrast(a, b) <= 21.0)
    && (forall h :: ops.hslHue(h).Some? ==> 0.0 <= ops.hslHue(h).value < 360.0)
    && (forall h :: ops.lchHue(h).Some? ==> 0.0 <= ops.lchHue(h).value < 360.0)
    && (forall keys, n :: |ops.scale(keys, n)| == n)
  }
}
