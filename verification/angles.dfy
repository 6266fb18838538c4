/**
  Rotation angles.  The token encoders compute rational multiples of pi,
  while the teleportation protocol and the phase appender take a plain
  number of radians.  An angle is recorded in the form it was computed, so
  that statements about the encoders are statements about the multiple of
  pi; the numeric value of pi itself is kept abstract (some positive real).
 */
module Angles {
  import opened Arith

  type PositiveReal = r: real | r > 0.0 witness 1.0

  /** The circle constant, left uninterpreted apart from being positive. */
  const PI: PositiveReal

  /** An angle: a number of radians, or a multiple of pi. */
  datatype Angle = Rad(radians: real) | PiTimes(multiple: real) {

    /** The angle in radians. */
    function Value(): real {
      match this
      case Rad(r) => r
      case PiTimes(k) => k * PI
    }
  }

  /** A multiple of pi in [0, c) is an angle in [0, c * pi). */
  lemma PiTimesBounds(k: real, c: real)
    requires 0.0 <= k < c
    ensures 0.0 <= PiTimes(k).Value() < c * PI
  {
    MulStrictlyIncreasing(k, c, PI);
    if k > 0.0 {
      MulStrictlyIncreasing(0.0, k, PI);
    }
  }

  /** Multiples of pi have equal values exactly when the multiples are equal. */
  lemma PiTimesValueInjective(k1: real, k2: real)
    ensures PiTimes(k1).Value() == PiTimes(k2).Value() <==> k1 == k2
  {
    MulInjective(k1, k2, PI);
  }
}
