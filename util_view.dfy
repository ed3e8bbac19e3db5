/** util/view.py: `scale_value`, the linear map of one range onto another, over the reals. */
module ViewUtil {

  /**
   * `((x - in_min) * (out_max - out_min)) / (in_max - in_min) + out_min`.
   * An empty input range divides by zero in the source; callers must avoid it.
   */
  function ScaleValue(x: real, inMin: real, inMax: real, outMin: real, outMax: real): (r: real)
    requires inMax != inMin
    ensures (r - outMin) * (inMax - inMin) == (x - inMin) * (outMax - outMin)
  {
    ((x - inMin) * (outMax - outMin)) / (inMax - inMin) + outMin
  }

  /** The bottom of the input range maps to the bottom of the output range. */
  lemma ScaleAtMin(inMin: real, inMax: real, outMin: real, outMax: real)
    requires inMax != inMin
    ensures ScaleValue(inMin, inMin, inMax, outMin, outMax) == outMin
  {
  }

  /** The top of the input range maps to the top of the output range. */
  lemma ScaleAtMax(inMin: real, inMax: real, outMin: real, outMax: real)
    requires inMax != inMin
    ensures ScaleValue(inMax, inMin, inMax, outMin, outMax) == outMax
  {
    assert (inMax - inMin) * (outMax - outMin) / (inMax - inMin) == outMax - outMin;
  }

  /** For increasing ranges the map is monotone. */
  lemma ScaleMonotone(x: real, y: real, inMin: real, inMax: real, outMin: real, outMax: real)
    requires inMin < inMax && outMin <= outMax && x <= y
    ensures ScaleValue(x, inMin, inMax, outMin, outMax) <= ScaleValue(y, inMin, inMax, outMin, outMax)
  {
    var w := inMax - inMin;
    var h := outMax - outMin;
    assert (y - inMin) * h - (x - inMin) * h == (y - x) * h;
    assert (y - x) * h >= 0.0;
    assert ((y - inMin) * h) / w - ((x - inMin) * h) / w == ((y - x) * h) / w;
  }

  /** For increasing ranges the input range lands inside the output range. */
  lemma ScaleInRange(x: real, inMin: real, inMax: real, outMin: real, outMax: real)
    requires inMin < inMax && outMin <= outMax && inMin <= x <= inMax
    ensures outMin <= ScaleValue(x, inMin, inMax, outMin, outMax) <= outMax
  {
    ScaleAtMin(inMin, inMax, outMin, outMax);
    ScaleAtMax(inMin, inMax, outMin, outMax);
    ScaleMonotone(inMin, x, inMin, inMax, outMin, outMax);
    ScaleMonotone(x, inMax, inMin, inMax, outMin, outMax);
  }
}
