/**
 * From calibrated head angles to cursor pixels: the linear map of `process_loop`, the
 * truncating `int()` conversion, the clamp that keeps the cursor 10 pixels inside the
 * screen, Python's `round` on the filtered value, and the calibration offsets.
 */
module ScreenMapping {
  /** The distance the clamp keeps from every screen edge. */
  const MARGIN: int := 10

  /** Python's `int()` of a float: truncation toward zero. */
  function Trunc(r: real): (t: int)
    ensures r >= 0.0 ==> t as real <= r < t as real + 1.0
    ensures r < 0.0 ==> t as real - 1.0 < r <= t as real
  {
    if r >= 0.0 then r.Floor else -((-r).Floor)
  }

  lemma TruncMonotone(a: real, b: real)
    requires a <= b
    ensures Trunc(a) <= Trunc(b)
  {
  }

  function MinInt(a: int, b: int): int {
    if a <= b then a else b
  }

  function MaxInt(a: int, b: int): int {
    if a <= b then b else a
  }

  /** `max(10, min(dim - 10, v))`: the cursor coordinate kept inside the screen. On a
    * screen narrower than 20 pixels the lower bound wins and the result is always 10. */
  function Clamp(v: int, dim: int): (c: int)
    ensures c >= MARGIN
    ensures dim >= 2 * MARGIN ==> c <= dim - MARGIN
    ensures MARGIN <= v <= dim - MARGIN ==> c == v
    ensures v < MARGIN ==> c == MARGIN
    ensures dim >= 2 * MARGIN && v > dim - MARGIN ==> c == dim - MARGIN
    ensures dim < 2 * MARGIN ==> c == MARGIN
  {
    MaxInt(MARGIN, MinInt(dim - MARGIN, v))
  }

  lemma ClampMonotone(u: int, v: int, dim: int)
    requires u <= v
    ensures Clamp(u, dim) <= Clamp(v, dim)
  {
  }

  /** Where a yaw lies between 180 - yawRange (0) and 180 + yawRange (1). */
  function YawFraction(yaw: real, yawRange: real): real
    requires yawRange != 0.0
  {
    (yaw - (180.0 - yawRange)) / (2.0 * yawRange)
  }

  /** Where a pitch lies between 180 + pitchRange (0) and 180 - pitchRange (1). */
  function PitchFraction(pitch: real, pitchRange: real): real
    requires pitchRange != 0.0
  {
    (180.0 + pitchRange - pitch) / (2.0 * pitchRange)
  }

  /** `screen_x` before the clamp: yaws from 180 - yawRange to 180 + yawRange span the width. */
  function MapYaw(yaw: real, yawRange: real, screenW: int): int
    requires yawRange != 0.0
  {
    Trunc(YawFraction(yaw, yawRange) * screenW as real)
  }

  /** `screen_y` before the clamp: pitches from 180 + pitchRange down to 180 - pitchRange
    * span the height, top to bottom. */
  function MapPitch(pitch: real, pitchRange: real, screenH: int): int
    requires pitchRange != 0.0
  {
    Trunc(PitchFraction(pitch, pitchRange) * screenH as real)
  }

  /** The clamped cursor column for a calibrated yaw. */
  function ScreenX(yaw: real, yawRange: real, screenW: int): (x: int)
    requires yawRange != 0.0
    ensures x >= MARGIN && (screenW >= 2 * MARGIN ==> x <= screenW - MARGIN)
  {
    Clamp(MapYaw(yaw, yawRange, screenW), screenW)
  }

  /** The clamped cursor row for a calibrated pitch. */
  function ScreenY(pitch: real, pitchRange: real, screenH: int): (y: int)
    requires pitchRange != 0.0
    ensures y >= MARGIN && (screenH >= 2 * MARGIN ==> y <= screenH - MARGIN)
  {
    Clamp(MapPitch(pitch, pitchRange, screenH), screenH)
  }

  lemma MulNonNegMonotone(k: real, u: real, v: real)
    requires k >= 0.0 && u <= v
    ensures u * k <= v * k
  {
    assert v * k - u * k == (v - u) * k;
  }

  lemma DivPosMonotone(u: real, v: real, d: real)
    requires d > 0.0 && u <= v
    ensures u / d <= v / d
  {
    var k := 1.0 / d;
    assert u / d == u * k && v / d == v * k;
    MulNonNegMonotone(k, u, v);
  }

  /** Turning further right never moves the cursor left (for a positive range). */
  lemma MapYawMonotone(yaw1: real, yaw2: real, yawRange: real, screenW: int)
    requires yaw1 <= yaw2 && yawRange > 0.0 && screenW >= 0
    ensures MapYaw(yaw1, yawRange, screenW) <= MapYaw(yaw2, yawRange, screenW)
  {
    DivPosMonotone(yaw1 - (180.0 - yawRange), yaw2 - (180.0 - yawRange), 2.0 * yawRange);
    MulNonNegMonotone(screenW as real, YawFraction(yaw1, yawRange), YawFraction(yaw2, yawRange));
    TruncMonotone(YawFraction(yaw1, yawRange) * screenW as real, YawFraction(yaw2, yawRange) * screenW as real);
  }

  /** Tilting further up never moves the cursor down (for a positive range). */
  lemma MapPitchAntitone(pitch1: real, pitch2: real, pitchRange: real, screenH: int)
    requires pitch1 <= pitch2 && pitchRange > 0.0 && screenH >= 0
    ensures MapPitch(pitch2, pitchRange, screenH) <= MapPitch(pitch1, pitchRange, screenH)
  {
    DivPosMonotone(180.0 + pitchRange - pitch2, 180.0 + pitchRange - pitch1, 2.0 * pitchRange);
    MulNonNegMonotone(screenH as real, PitchFraction(pitch2, pitchRange), PitchFraction(pitch1, pitchRange));
    TruncMonotone(PitchFraction(pitch2, pitchRange) * screenH as real, PitchFraction(pitch1, pitchRange) * screenH as real);
  }

  lemma ScreenXMonotone(yaw1: real, yaw2: real, yawRange: real, screenW: int)
    requires yaw1 <= yaw2 && yawRange > 0.0 && screenW >= 0
    ensures ScreenX(yaw1, yawRange, screenW) <= ScreenX(yaw2, yawRange, screenW)
  {
    MapYawMonotone(yaw1, yaw2, yawRange, screenW);
    ClampMonotone(MapYaw(yaw1, yawRange, screenW), MapYaw(yaw2, yawRange, screenW), screenW);
  }

  lemma ScreenYAntitone(pitch1: real, pitch2: real, pitchRange: real, screenH: int)
    requires pitch1 <= pitch2 && pitchRange > 0.0 && screenH >= 0
    ensures ScreenY(pitch2, pitchRange, screenH) <= ScreenY(pitch1, pitchRange, screenH)
  {
    MapPitchAntitone(pitch1, pitch2, pitchRange, screenH);
    ClampMonotone(MapPitch(pitch2, pitchRange, screenH), MapPitch(pitch1, pitchRange, screenH), screenH);
  }

  /** Half of a non-negative number of pixels, truncated, is its floor division by 2. */
  lemma TruncHalf(n: int)
    requires n >= 0
    ensures Trunc(n as real / 2.0) == n / 2
  {
    var q := n / 2;
    assert n as real / 2.0 == q as real + (n - 2 * q) as real / 2.0;
  }

  /** Half of a nonzero range over twice that range. */
  lemma HalfRange(r: real)
    requires r != 0.0
    ensures r / (2.0 * r) == 0.5
  {
    assert 0.5 * (2.0 * r) == r;
  }

  /** An angle of exactly 180 maps to half the screen, whatever the (nonzero) range: the
    * value `screen_w // 2` the cursor target starts at. */
  lemma MapYawCentre(yawRange: real, screenW: int)
    requires yawRange != 0.0 && screenW >= 0
    ensures MapYaw(180.0, yawRange, screenW) == screenW / 2
  {
    assert 180.0 - (180.0 - yawRange) == yawRange;
    HalfRange(yawRange);
    assert YawFraction(180.0, yawRange) == 0.5;
    TruncHalf(screenW);
  }

  lemma MapPitchCentre(pitchRange: real, screenH: int)
    requires pitchRange != 0.0 && screenH >= 0
    ensures MapPitch(180.0, pitchRange, screenH) == screenH / 2
  {
    assert 180.0 + pitchRange - 180.0 == pitchRange;
    HalfRange(pitchRange);
    assert PitchFraction(180.0, pitchRange) == 0.5;
    TruncHalf(screenH);
  }

  /** 180 - range maps to the left edge and 180 + range to the right edge. */
  lemma MapYawSpan(yawRange: real, screenW: int)
    requires yawRange != 0.0
    ensures MapYaw(180.0 - yawRange, yawRange, screenW) == 0
    ensures MapYaw(180.0 + yawRange, yawRange, screenW) == screenW
  {
    assert (180.0 - yawRange) - (180.0 - yawRange) == 0.0;
    assert (180.0 + yawRange) - (180.0 - yawRange) == 2.0 * yawRange;
    assert YawFraction(180.0 - yawRange, yawRange) == 0.0;
    assert YawFraction(180.0 + yawRange, yawRange) == 1.0;
  }

  /** 180 + range maps to the top edge and 180 - range to the bottom edge. */
  lemma MapPitchSpan(pitchRange: real, screenH: int)
    requires pitchRange != 0.0
    ensures MapPitch(180.0 + pitchRange, pitchRange, screenH) == 0
    ensures MapPitch(180.0 - pitchRange, pitchRange, screenH) == screenH
  {
    assert 180.0 + pitchRange - (180.0 + pitchRange) == 0.0;
    assert 180.0 + pitchRange - (180.0 - pitchRange) == 2.0 * pitchRange;
    assert PitchFraction(180.0 + pitchRange, pitchRange) == 0.0;
    assert PitchFraction(180.0 - pitchRange, pitchRange) == 1.0;
  }

  /** `calibrate_center`: the offset that moves the current raw angle to 180. */
  function CalibrationOffset(raw: real): (cal: real)
    ensures raw + cal == 180.0
  {
    180.0 - raw
  }

  /** After calibrating on a pose, the same pose puts the cursor at the centre of the
    * screen, which the clamp leaves alone on a screen at least 20 pixels wide. */
  lemma CalibratedPoseIsCentre(rawYaw: real, rawPitch: real, yawRange: real, pitchRange: real,
                               screenW: int, screenH: int)
    requires yawRange != 0.0 && pitchRange != 0.0
    requires screenW >= 2 * MARGIN && screenH >= 2 * MARGIN
    ensures ScreenX(rawYaw + CalibrationOffset(rawYaw), yawRange, screenW) == screenW / 2
    ensures ScreenY(rawPitch + CalibrationOffset(rawPitch), pitchRange, screenH) == screenH / 2
  {
    MapYawCentre(yawRange, screenW);
    MapPitchCentre(pitchRange, screenH);
  }

  /** `round` on a float: the nearest integer, ties going to the even neighbour. */
  function RoundHalfEven(r: real): (k: int)
    ensures -0.5 <= r - k as real <= 0.5
    ensures r - k as real == 0.5 || r - k as real == -0.5 ==> k % 2 == 0
  {
    var f := r.Floor;
    var frac := r - f as real;
    if frac < 0.5 then f
    else if frac > 0.5 then f + 1
    else if f % 2 == 0 then f
    else f + 1
  }

  /** Only one integer meets RoundHalfEven's contract. */
  lemma RoundUnique(r: real, k: int)
    requires -0.5 <= r - k as real <= 0.5
    requires r - k as real == 0.5 || r - k as real == -0.5 ==> k % 2 == 0
    ensures RoundHalfEven(r) == k
  {
    var j := RoundHalfEven(r);
    assert -1.0 <= (j - k) as real <= 1.0;
  }

  /** Rounding a value between two integers stays between them: the filtered cursor
    * target stays inside the clamped area. */
  lemma RoundWithin(r: real, lo: int, hi: int)
    requires lo as real <= r <= hi as real
    ensures lo <= RoundHalfEven(r) <= hi
  {
  }
}
