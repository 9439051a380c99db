/**
 * Head angles of `process_loop`: the angle between the averaged face direction and the
 * reference direction (0, 0, -1), signed by the direction's components, then folded
 * into the convention the screen mapper expects, with straight-back-at-the-reference
 * geometry (an angle of 180) meaning the centre of the screen.
 */
module Orientation {
  /** Degrees returned by `np.degrees(math.acos(...))` of a clipped cosine. */
  type Degrees180 = r: real | 0.0 <= r <= 180.0

  /** yaw_deg before normalisation: negated when the averaged direction points to negative x. */
  function SignedYaw(acosDeg: Degrees180, dirX: real): (d: real)
    ensures -180.0 <= d <= 180.0
    ensures d < 0.0 ==> dirX < 0.0
  {
    if dirX < 0.0 then 0.0 - acosDeg as real else acosDeg
  }

  /** pitch_deg before normalisation: negated when the averaged direction points to positive y. */
  function SignedPitch(acosDeg: Degrees180, dirY: real): (d: real)
    ensures -180.0 <= d <= 180.0
    ensures d < 0.0 ==> dirY > 0.0
  {
    if dirY > 0.0 then 0.0 - acosDeg as real else acosDeg
  }

  /** The yaw folding rule: a negative yaw becomes its magnitude, a yaw in [0, 180) is
    * mirrored to 360 - yaw, and any other yaw is kept. */
  function NormalizeYaw(d: real): (r: real)
    ensures -180.0 <= d <= 180.0 ==> 0.0 < r <= 360.0
    ensures d == 180.0 ==> r == 180.0
  {
    if d < 0.0 then -d
    else if d < 180.0 then 360.0 - d
    else d
  }

  /** The pitch folding rule: a negative pitch is shifted up by 360, any other pitch is kept. */
  function NormalizePitch(d: real): (r: real)
    ensures -180.0 <= d <= 180.0 ==> 0.0 <= r < 360.0
    ensures d == 180.0 ==> r == 180.0
  {
    if d < 0.0 then 360.0 + d else d
  }

  /** Yaw folding loses nothing but the sign of +-180: distinct yaws in (-180, 180] stay distinct. */
  lemma NormalizeYawInjective(d1: real, d2: real)
    requires -180.0 < d1 <= 180.0 && -180.0 < d2 <= 180.0
    requires NormalizeYaw(d1) == NormalizeYaw(d2)
    ensures d1 == d2
  {
  }

  /** Pitch folding is injective on [-180, 180). */
  lemma NormalizePitchInjective(d1: real, d2: real)
    requires -180.0 <= d1 < 180.0 && -180.0 <= d2 < 180.0
    requires NormalizePitch(d1) == NormalizePitch(d2)
    ensures d1 == d2
  {
  }

  /** The raw yaw stored and mapped for one frame. */
  function RawYaw(acosDeg: Degrees180, dirX: real): (r: real)
    ensures 0.0 < r <= 360.0
  {
    NormalizeYaw(SignedYaw(acosDeg, dirX))
  }

  /** The raw pitch stored and mapped for one frame. */
  function RawPitch(acosDeg: Degrees180, dirY: real): (r: real)
    ensures 0.0 <= r < 360.0
  {
    NormalizePitch(SignedPitch(acosDeg, dirY))
  }

  /** A head turned towards negative x gets a yaw of at most 180, one turned towards
    * positive x a yaw of at least 180; 180 itself means an acos angle of 180. An acos
    * angle of 0 is not negated (it stays zero) and gives 360 on either side. */
  lemma RawYawSides(acosDeg: Degrees180, dirX: real)
    ensures dirX < 0.0 && acosDeg > 0.0 ==> RawYaw(acosDeg, dirX) <= 180.0
    ensures acosDeg == 0.0 ==> RawYaw(acosDeg, dirX) == 360.0
    ensures dirX >= 0.0 ==> RawYaw(acosDeg, dirX) >= 180.0
    ensures RawYaw(acosDeg, dirX) == 180.0 <==> acosDeg == 180.0
  {
  }

  /** A head tilted towards positive y gets a pitch of at least 180, otherwise at most 180;
    * 180 itself means an acos angle of 180, and an acos angle of 0 gives 0 on either side. */
  lemma RawPitchSides(acosDeg: Degrees180, dirY: real)
    ensures dirY > 0.0 && acosDeg > 0.0 ==> RawPitch(acosDeg, dirY) >= 180.0
    ensures acosDeg == 0.0 ==> RawPitch(acosDeg, dirY) == 0.0
    ensures dirY <= 0.0 ==> RawPitch(acosDeg, dirY) <= 180.0
    ensures RawPitch(acosDeg, dirY) == 180.0 <==> acosDeg == 180.0
  {
  }
}
