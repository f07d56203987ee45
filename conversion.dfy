/**
 * The affine converter both cursor factories build between a domain value
 * (a time, a level, a trigger level) and a screen coordinate. The three
 * parameters are read afresh each time a closure runs; here they are passed in.
 */
module Conversion {

  datatype Parameters = Parameters(referenceValue: real, scale: real, referencePosition: real)

  /** Domain value to screen coordinate. */
  function Forward(p: Parameters, value: real): (coordinate: real)
    ensures value == p.referenceValue ==> coordinate == p.referencePosition
  {
    (value - p.referenceValue) * p.scale + p.referencePosition
  }

  /** Screen coordinate to domain value; the source divides by the scale. */
  function Inverse(p: Parameters, coordinate: real): (value: real)
    requires p.scale != 0.0
    ensures Forward(p, value) == coordinate
  {
    ((coordinate - p.referencePosition) / p.scale) + p.referenceValue
  }

  lemma InverseOfForward(p: Parameters, value: real)
    requires p.scale != 0.0
    ensures Inverse(p, Forward(p, value)) == value
  {
  }

  lemma ForwardOfInverse(p: Parameters, coordinate: real)
    requires p.scale != 0.0
    ensures Forward(p, Inverse(p, coordinate)) == coordinate
  {
  }

  /** With a non-zero scale, distinct values land on distinct coordinates. */
  lemma ForwardInjective(p: Parameters, a: real, b: real)
    requires p.scale != 0.0
    ensures Forward(p, a) == Forward(p, b) <==> a == b
  {
    InverseOfForward(p, a);
    InverseOfForward(p, b);
  }
}
