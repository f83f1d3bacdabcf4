/** The arithmetic helpers of the OpenGL utility layer: randRange, clamp and the
    HSV to RGB conversion.  Floats are modelled as exact reals. */
module GlUtilities {

  /** RAND_MAX of the C library the game links against (glibc's value). */
  const RandMax: int := 2147483647

  /** A value that rand() can return. */
  predicate IsDraw(draw: int) {
    0 <= draw <= RandMax
  }

  /** randRange(min, max), with the value of rand() passed in as `draw`.
      The result sweeps the closed interval between min and max. */
  function RandRange(min: real, max: real, draw: int): (r: real)
    ensures IsDraw(draw) && min <= max ==> min <= r <= max
    ensures IsDraw(draw) && max <= min ==> max <= r <= min
    ensures draw == 0 ==> r == min
    ensures draw == RandMax ==> r == max
  {
    var t := draw as real / RandMax as real;
    if IsDraw(draw) then
      assert 0.0 <= t <= 1.0;
      if min <= max then InterpolateUp(min, max, t); Lerp(min, max, t)
      else InterpolateDown(min, max, t); Lerp(min, max, t)
    else
      Lerp(min, max, t)
  }

  /** The point a fraction t of the way from a to b. */
  function Lerp(a: real, b: real, t: real): real {
    (b - a) * t + a
  }

  /** clamp(val, min, max) = std::max(min, std::min(max, val)). */
  function Clamp(val: real, min: real, max: real): (r: real)
    ensures r >= min
    ensures min <= max ==> r <= max
    ensures min <= val <= max ==> r == val
    ensures val < min ==> r == min
    ensures min <= max < val ==> r == max
    ensures max < min ==> r == min
  {
    var low := if val < max then val else max;
    if min < low then low else min
  }

  datatype Rgb = Rgb(r: real, g: real, b: real)
  datatype Rgba = Rgba(r: real, g: real, b: real, a: real)

  /** C's float to int conversion: truncation toward zero. */
  function TruncToInt(x: real): (n: int)
    ensures x >= 0.0 ==> 0 <= n && n as real <= x < n as real + 1.0
    ensures x < 0.0 ==> n <= 0 && n as real - 1.0 < x <= n as real
  {
    if x >= 0.0 then x.Floor else -((-x).Floor)
  }

  /** The top of the colour range, `v` in the source. */
  function HsvTop(sat: real, val: real): real {
    if val <= 0.5 then val * (1.0 + sat) else val + sat - val * sat
  }

  /** The bottom of the colour range, `m` in the source. */
  function HsvBottom(sat: real, val: real): real {
    val + val - HsvTop(sat, val)
  }

  /** vsf = v * sv * fract with the saturation sv = (v - m) / v. */
  function SextantRamp(v: real, m: real, fract: real): real
    requires v != 0.0
  {
    v * ((v - m) / v) * fract
  }

  /** The channels of one sextant of the hue wheel; `vsf` is how far the
      ramp has moved from the sextant's start, ranging over [0, v - m]. */
  function SextantColour(sextant: int, v: real, m: real, vsf: real, gray: real): Rgb {
    var mid1 := m + vsf;
    var mid2 := v - vsf;
    match sextant
    case 0 => Rgb(v, mid1, m)
    case 1 => Rgb(mid2, v, m)
    case 2 => Rgb(m, v, mid1)
    case 3 => Rgb(m, mid2, v)
    case 4 => Rgb(mid1, m, v)
    case 5 => Rgb(v, m, mid2)
    case _ => Rgb(gray, gray, gray)
  }

  /** hsv2rgb(hue, sat, val): the gray default (val, val, val) unless v > 0,
      in which case the sextant switch picks the channels. */
  function Hsv2Rgb(hue: real, sat: real, val: real): Rgb {
    var v := HsvTop(sat, val);
    if v > 0.0 then
      var m := val + val - v;
      var h := hue * 6.0;
      var sextant := TruncToInt(h);
      var fract := h - sextant as real;
      SextantColour(sextant, v, m, SextantRamp(v, m, fract), val)
    else
      Rgb(val, val, val)
  }

  /** The four-argument overload: the RGB conversion with alpha appended. */
  function Hsv2Rgba(hue: real, sat: real, val: real, alpha: real): (c: Rgba)
    ensures Rgb(c.r, c.g, c.b) == Hsv2Rgb(hue, sat, val)
    ensures c.a == alpha
  {
    var rgb := Hsv2Rgb(hue, sat, val);
    Rgba(rgb.r, rgb.g, rgb.b, alpha)
  }

  predicate InUnit(x: real) {
    0.0 <= x <= 1.0
  }

  predicate ChannelsWithin(c: Rgb, lo: real, hi: real) {
    lo <= c.r <= hi && lo <= c.g <= hi && lo <= c.b <= hi
  }

  // ---------------------------------------------------------------------
  // Properties

  /** With no saturation every hue gives the gray (val, val, val). */
  lemma Hsv2RgbUnsaturatedIsGray(hue: real, val: real)
    ensures Hsv2Rgb(hue, 0.0, val) == Rgb(val, val, val)
  {
    var v := HsvTop(0.0, val);
    assert v == val;
    if v > 0.0 {
      var sextant := TruncToInt(hue * 6.0);
      var vsf := SextantRamp(v, val + val - v, hue * 6.0 - sextant as real);
      assert vsf == 0.0;
    }
  }

  /** When the top of the range is not positive the default gray is returned. */
  lemma Hsv2RgbDarkIsGray(hue: real, sat: real, val: real)
    requires HsvTop(sat, val) <= 0.0
    ensures Hsv2Rgb(hue, sat, val) == Rgb(val, val, val)
  {
  }

  /** Black stays black whatever the hue and saturation. */
  lemma Hsv2RgbBlack(hue: real, sat: real)
    requires InUnit(sat)
    ensures Hsv2Rgb(hue, sat, 0.0) == Rgb(0.0, 0.0, 0.0)
  {
    Hsv2RgbDarkIsGray(hue, sat, 0.0);
  }

  /** hue = 1 lands in sextant 6, which no case of the switch handles:
      the result is gray even for a saturated colour. */
  lemma Hsv2RgbHueOneIsGray(sat: real, val: real)
    ensures Hsv2Rgb(1.0, sat, val) == Rgb(val, val, val)
  {
    if HsvTop(sat, val) > 0.0 {
      assert TruncToInt(6.0) == 6;
    }
  }

  /** The three primaries at full saturation and half value. */
  lemma Hsv2RgbPrimaries()
    ensures Hsv2Rgb(0.0, 1.0, 0.5) == Rgb(1.0, 0.0, 0.0)
    ensures Hsv2Rgb(1.0 / 3.0, 1.0, 0.5) == Rgb(0.0, 1.0, 0.0)
    ensures Hsv2Rgb(2.0 / 3.0, 1.0, 0.5) == Rgb(0.0, 0.0, 1.0)
  {
    assert TruncToInt(0.0) == 0;
    assert TruncToInt(2.0) == 2;
    assert TruncToInt(4.0) == 4;
  }

  /** The hue wheel is continuous: the end of each sextant's ramp is the start
      of the next one's, and sextant 5 closes the circle onto sextant 0. */
  lemma SextantsJoin(k: int, v: real, m: real, gray: real)
    requires 0 <= k <= 5
    ensures SextantColour(k, v, m, v - m, gray) == SextantColour((k + 1) % 6, v, m, 0.0, gray)
  {
  }

  /** For hue in [0,1) and sat, val in [0,1] every channel lies in [m, v],
      which lies in [0, 1]: the "all values in range 0 - 1" promise. */
  lemma Hsv2RgbInRange(hue: real, sat: real, val: real)
    requires 0.0 <= hue < 1.0 && InUnit(sat) && InUnit(val)
    ensures ChannelsWithin(Hsv2Rgb(hue, sat, val), 0.0, 1.0)
    ensures HsvTop(sat, val) > 0.0 ==>
              ChannelsWithin(Hsv2Rgb(hue, sat, val), HsvBottom(sat, val), HsvTop(sat, val))
  {
    TopBottomInUnit(sat, val);
    if HsvTop(sat, val) > 0.0 {
      Hsv2RgbInSextant(hue, sat, val);
    }
  }

  /** The saturated case: the hue picks one of the sextants 0..5 and the ramp
      stays inside [m, v]. */
  lemma Hsv2RgbInSextant(hue: real, sat: real, val: real)
    requires 0.0 <= hue < 1.0 && HsvBottom(sat, val) <= HsvTop(sat, val) && HsvTop(sat, val) > 0.0
    ensures ChannelsWithin(Hsv2Rgb(hue, sat, val), HsvBottom(sat, val), HsvTop(sat, val))
  {
    var v := HsvTop(sat, val);
    var m := HsvBottom(sat, val);
    var sextant := TruncToInt(hue * 6.0);
    var fract := hue * 6.0 - sextant as real;
    SextantOfHue(hue);
    ScaledRampWithin(v, m, fract);
    SextantColourWithin(sextant, v, m, SextantRamp(v, m, fract), val);
  }

  /** A hue in [0,1) falls in one of the sextants 0..5 at a fraction in [0,1). */
  lemma SextantOfHue(hue: real)
    requires 0.0 <= hue < 1.0
    ensures 0 <= TruncToInt(hue * 6.0) <= 5
    ensures 0.0 <= hue * 6.0 - TruncToInt(hue * 6.0) as real < 1.0
  {
    var n := TruncToInt(hue * 6.0);
    assert n as real < 6.0;
  }

  /** The ramp vsf lies in [0, v - m]. */
  lemma ScaledRampWithin(v: real, m: real, fract: real)
    requires v > 0.0 && m <= v && 0.0 <= fract <= 1.0
    ensures 0.0 <= SextantRamp(v, m, fract) <= v - m
  {
    assert v * ((v - m) / v) == v - m;
    assert v * ((v - m) / v) * fract == Ramp(v * ((v - m) / v), fract) == Ramp(v - m, fract);
    RampWithin(v - m, fract);
  }

  /** Inside the six sextants every channel is v, m or a ramp between them. */
  lemma SextantColourWithin(k: int, v: real, m: real, vsf: real, gray: real)
    requires 0 <= k <= 5 && 0.0 <= vsf <= v - m
    ensures ChannelsWithin(SextantColour(k, v, m, vsf, gray), m, v)
  {
  }

  /** The part `fract` of a span. */
  function Ramp(span: real, fract: real): real {
    span * fract
  }

  /** A ramp of a non-negative span by a fraction in [0,1] stays within the span. */
  lemma RampWithin(span: real, fract: real)
    requires span >= 0.0 && 0.0 <= fract <= 1.0
    ensures 0.0 <= Ramp(span, fract) <= span
  {
    assert span * fract >= 0.0;
    assert span * (1.0 - fract) >= 0.0;
    assert span * (1.0 - fract) == span - span * fract;
  }

  /** Linear interpolation by a fraction in [0,1] stays between its ends. */
  lemma InterpolateUp(a: real, b: real, t: real)
    requires 0.0 <= t <= 1.0 && a <= b
    ensures a <= Lerp(a, b, t) <= b
  {
    RampWithin(b - a, t);
  }

  lemma InterpolateDown(a: real, b: real, t: real)
    requires 0.0 <= t <= 1.0 && b <= a
    ensures b <= Lerp(a, b, t) <= a
  {
    RampWithin(a - b, t);
    assert (a - b) * t == -((b - a) * t);
  }

  lemma TopBottomInUnit(sat: real, val: real)
    requires InUnit(sat) && InUnit(val)
    ensures 0.0 <= HsvBottom(sat, val) <= HsvTop(sat, val) <= 1.0
    ensures HsvTop(sat, val) >= val
  {
    var v := HsvTop(sat, val);
    if val <= 0.5 {
      assert v == val + Ramp(val, sat);
      RampWithin(val, sat);
    } else {
      assert v == val + Ramp(1.0 - val, sat);
      RampWithin(1.0 - val, sat);
    }
  }
}
