/** The brightness calibration curve of the cmc623 PWM backlight driver.

    An abstract intensity (0..255, the backlight framework's brightness) is
    turned into a PWM level (0..1600) by a four-segment piecewise-linear curve
    evaluated top-down, with C integer arithmetic. The per-board constants are
    gathered in a `Config`; `P4` and `P5` are the two boards the driver knows.
 */
module Calibration {

  /** The compile-time constants of one board. */
  datatype Config = Config(
    maxIntensity: int,        // CMC623_PWM_MAX_INTENSITY, the framework's max_brightness
    defaultIntensity: int,    // CMC623_PWM_DEFAULT_INTENSITY
    maxLevel: int,            // MAX_LEVEL, the PWM full scale
    maxBrightnessLevel: int,  // MAX_BRIGHTNESS_LEVEL .. DIM_BRIGHTNESS_LEVEL: input breakpoints
    midBrightnessLevel: int,
    lowBrightnessLevel: int,
    dimBrightnessLevel: int,
    maxBacklightValue: int,   // MAX_BACKLIGHT_VALUE .. DARK_BACKLIGHT_VALUE: output breakpoints
    midBacklightValue: int,
    lowBacklightValue: int,
    dimBacklightValue: int,
    darkBacklightValue: int)

  /** A well-formed curve: input breakpoints strictly increasing and above
      zero, output breakpoints non-decreasing from zero up to the full scale,
      the default intensity inside the framework's range, and that range
      inside the curve's. */
  predicate Valid(cfg: Config)
  {
    0 < cfg.dimBrightnessLevel < cfg.lowBrightnessLevel
      < cfg.midBrightnessLevel < cfg.maxBrightnessLevel &&
    0 <= cfg.darkBacklightValue <= cfg.dimBacklightValue <= cfg.lowBacklightValue
      <= cfg.midBacklightValue <= cfg.maxBacklightValue <= cfg.maxLevel &&
    0 <= cfg.defaultIntensity <= cfg.maxIntensity <= cfg.maxBrightnessLevel
  }

  /** CONFIG_MACH_SAMSUNG_P4, P4WIFI and P4LTE. */
  const P4: Config := Config(255, 150, 1600, 255, 150, 50, 15, 1600, 784, 90, 50, 0)

  /** CONFIG_MACH_SAMSUNG_P5. */
  const P5: Config := Config(255, 150, 1600, 255, 150, 30, 20, 1600, 784, 60, 60, 60)

  // ---------------------------------------------------------------------
  // Integer arithmetic used by the interpolation

  lemma DivMonotone(x: int, y: int, w: int)
    requires 0 < w && x <= y
    ensures x / w <= y / w
  {
    var qx, qy := x / w, y / w;
    assert x == w * qx + x % w && y == w * qy + y % w;
    if qx > qy {
      MulMonotone(qy + 1, qx, w);
      assert false;
    }
  }

  lemma MulMonotone(a: int, b: int, c: int)
    requires a <= b && 0 <= c
    ensures a * c <= b * c && c * a <= c * b
  {
    assert b * c - a * c == (b - a) * c;
  }

  lemma MulDivCancel(w: int, d: int)
    requires 0 < w
    ensures (w * d) / w == d
  {
    var q, r := (w * d) / w, (w * d) % w;
    assert w * d == w * q + r && 0 <= r < w;
    if q < d {
      MulMonotone(q + 1, d, w);
      assert false;
    } else if q > d {
      MulMonotone(d + 1, q, w);
      assert false;
    }
  }

  // ---------------------------------------------------------------------
  // The curve

  /** k/w of the rise d, truncated, lies between 0 and d for 0 <= k <= w,
      is d itself at k == w, and is never negative beyond w. */
  lemma ScaleBounds(k: int, w: int, d: int)
    requires 0 <= k && 0 < w && 0 <= d
    ensures 0 <= k * d / w
    ensures k <= w ==> k * d / w <= d
    ensures k == w ==> k * d / w == d
  {
    MulMonotone(0, k, d);
    DivMonotone(0, k * d, w);
    MulDivCancel(w, d);
    if k <= w {
      MulMonotone(k, w, d);
      DivMonotone(k * d, w * d, w);
    }
  }

  /** One linear segment from (x0, y0) to (x1, y1), evaluated at x >= x0
      with a truncating division; the numerator is never negative here, so
      Dafny's division agrees with C's. The result never undershoots the
      segment's start, reaches its end exactly at x1, and stays inside the
      segment up to there. */
  function Interpolate(x: int, x0: int, x1: int, y0: int, y1: int): (r: int)
    requires x0 < x1 && y0 <= y1 && x0 <= x
    ensures y0 <= r
    ensures x == x0 ==> r == y0
    ensures x == x1 ==> r == y1
    ensures x <= x1 ==> r <= y1
  {
    ScaleBounds(x - x0, x1 - x0, y1 - y0);
    y0 + (x - x0) * (y1 - y0) / (x1 - x0)
  }

  /** A larger input never gives a smaller point on the same segment. */
  lemma InterpolateMonotone(x: int, x': int, x0: int, x1: int, y0: int, y1: int)
    requires x0 < x1 && y0 <= y1 && x0 <= x <= x'
    ensures Interpolate(x, x0, x1, y0, y1) <= Interpolate(x', x0, x1, y0, y1)
  {
    MulMonotone(x - x0, x' - x0, y1 - y0);
    DivMonotone((x - x0) * (y1 - y0), (x' - x0) * (y1 - y0), x1 - x0);
  }

  /** cmc623_pwm_backlight_ctl's tune_level for a given intensity. Over the
      intensity range the level stays within the PWM full scale, and every
      positive intensity gives at least the dark floor. */
  function Map(cfg: Config, intensity: int): (level: int)
    requires Valid(cfg)
    ensures 0 <= intensity <= cfg.maxBrightnessLevel ==>
      0 <= level <= cfg.maxBacklightValue <= cfg.maxLevel
    ensures 0 < intensity ==> cfg.darkBacklightValue <= level
  {
    if intensity >= cfg.midBrightnessLevel then
      Interpolate(intensity, cfg.midBrightnessLevel, cfg.maxBrightnessLevel,
                  cfg.midBacklightValue, cfg.maxBacklightValue)
    else if intensity >= cfg.lowBrightnessLevel then
      Interpolate(intensity, cfg.lowBrightnessLevel, cfg.midBrightnessLevel,
                  cfg.lowBacklightValue, cfg.midBacklightValue)
    else if intensity >= cfg.dimBrightnessLevel then
      Interpolate(intensity, cfg.dimBrightnessLevel, cfg.lowBrightnessLevel,
                  cfg.dimBacklightValue, cfg.lowBacklightValue)
    else if intensity > 0 then
      cfg.darkBacklightValue
    else
      intensity
  }

  // ---------------------------------------------------------------------
  // Properties of the curve

  /** Zero maps to zero, not to the dark floor; every intensity strictly
      between zero and the dim threshold maps to the dark floor; a negative
      intensity is returned unchanged. */
  lemma MapFloor(cfg: Config, i: int)
    requires Valid(cfg)
    ensures i == 0 ==> Map(cfg, i) == 0
    ensures 0 < i < cfg.dimBrightnessLevel ==> Map(cfg, i) == cfg.darkBacklightValue
    ensures i < 0 ==> Map(cfg, i) == i
  {
  }

  /** The four breakpoints are hit exactly, with no truncation error. */
  lemma MapKnots(cfg: Config)
    requires Valid(cfg)
    ensures Map(cfg, cfg.dimBrightnessLevel) == cfg.dimBacklightValue
    ensures Map(cfg, cfg.lowBrightnessLevel) == cfg.lowBacklightValue
    ensures Map(cfg, cfg.midBrightnessLevel) == cfg.midBacklightValue
    ensures Map(cfg, cfg.maxBrightnessLevel) == cfg.maxBacklightValue
  {
  }

  /** Each interpolated segment stays between its two output breakpoints;
      past the last input breakpoint the level never falls below the
      maximum backlight value. */
  lemma MapSegments(cfg: Config, i: int)
    requires Valid(cfg)
    ensures cfg.dimBrightnessLevel <= i < cfg.lowBrightnessLevel ==>
      cfg.dimBacklightValue <= Map(cfg, i) <= cfg.lowBacklightValue
    ensures cfg.lowBrightnessLevel <= i < cfg.midBrightnessLevel ==>
      cfg.lowBacklightValue <= Map(cfg, i) <= cfg.midBacklightValue
    ensures cfg.midBrightnessLevel <= i <= cfg.maxBrightnessLevel ==>
      cfg.midBacklightValue <= Map(cfg, i) <= cfg.maxBacklightValue
    ensures cfg.maxBrightnessLevel < i ==> cfg.maxBacklightValue <= Map(cfg, i)
  {
    if cfg.maxBrightnessLevel < i {
      InterpolateMonotone(cfg.maxBrightnessLevel, i, cfg.midBrightnessLevel,
        cfg.maxBrightnessLevel, cfg.midBacklightValue, cfg.maxBacklightValue);
    }
  }

  /** The top segment is not clamped at the last input breakpoint: it keeps
      its slope, so as far past that breakpoint as the middle one is below
      it, the level is as far above the maximum backlight value as the
      middle value is below it. */
  lemma MapNotClamped(cfg: Config)
    requires Valid(cfg)
    ensures Map(cfg, 2 * cfg.maxBrightnessLevel - cfg.midBrightnessLevel)
            == 2 * cfg.maxBacklightValue - cfg.midBacklightValue
  {
    var w := cfg.maxBrightnessLevel - cfg.midBrightnessLevel;
    var d := cfg.maxBacklightValue - cfg.midBacklightValue;
    MulDivCancel(w, 2 * d);
    assert (2 * w) * d == w * (2 * d);
  }

  /** The curve is non-decreasing everywhere, across segment boundaries too
      (negative inputs included, since they pass through unchanged). */
  lemma MapMonotone(cfg: Config, i: int, j: int)
    requires Valid(cfg) && i <= j
    ensures Map(cfg, i) <= Map(cfg, j)
  {
    MapSegments(cfg, i);
    MapSegments(cfg, j);
    var mid, low, dim := cfg.midBrightnessLevel, cfg.lowBrightnessLevel, cfg.dimBrightnessLevel;
    if mid <= i {
      InterpolateMonotone(i, j, mid, cfg.maxBrightnessLevel,
        cfg.midBacklightValue, cfg.maxBacklightValue);
    } else if low <= i && j < mid {
      InterpolateMonotone(i, j, low, mid, cfg.lowBacklightValue, cfg.midBacklightValue);
    } else if dim <= i && j < low {
      InterpolateMonotone(i, j, dim, low, cfg.dimBacklightValue, cfg.lowBacklightValue);
    }
  }

  // ---------------------------------------------------------------------
  // The two boards

  /** The P4 constants form a well-formed curve whose knots are 50, 90,
      784 and 1600. */
  lemma P4Curve()
    ensures Valid(P4)
    ensures Map(P4, 15) == 50 && Map(P4, 50) == 90
    ensures Map(P4, 150) == 784 && Map(P4, 255) == 1600
  {
    MapKnots(P4);
  }

  /** Sample points of the P4 curve: the floor below the dim threshold is 0,
      the truncating division shows between the knots (49 gives 88, not 89),
      and 256 is not clamped to the full scale. */
  lemma P4Samples()
    ensures Valid(P4)
    ensures Map(P4, 0) == 0 && Map(P4, 10) == 0
    ensures Map(P4, 49) == 88 && Map(P4, 149) == 777 && Map(P4, 256) == 1607
  {
    assert Map(P4, 49) == 50 + 1360 / 35;
    assert Map(P4, 149) == 90 + 68706 / 100;
    assert Map(P4, 256) == 784 + 86496 / 105;
  }

  /** The P5 constants form a well-formed curve with a flat bottom: every
      intensity from 1 up to the low threshold gives 60. */
  lemma P5Curve()
    ensures Valid(P5)
    ensures Map(P5, 0) == 0
    ensures forall i :: 0 < i <= 30 ==> Map(P5, i) == 60
    ensures Map(P5, 150) == 784 && Map(P5, 255) == 1600
  {
    forall i | 0 < i <= 30 ensures Map(P5, i) == 60 {
      MapSegments(P5, i);
    }
  }

  /** On both boards the curve is non-decreasing and stays in [0, 1600]
      over the whole intensity range 0..255. */
  lemma BoardsMonotoneAndBounded(cfg: Config)
    requires cfg == P4 || cfg == P5
    ensures forall i, j :: 0 <= i <= j <= 255 ==> Map(cfg, i) <= Map(cfg, j)
    ensures forall i :: 0 <= i <= 255 ==> 0 <= Map(cfg, i) <= 1600
  {
    forall i, j | 0 <= i <= j <= 255 ensures Map(cfg, i) <= Map(cfg, j) {
      MapMonotone(cfg, i, j);
    }
  }
}
