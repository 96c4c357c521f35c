/** Range helpers shared by the value types: the haptic parameter clamp to
    [0, 1] and the non-negative time clamp. */
module HapticxUtils {

  function Min(a: real, b: real): real { if a <= b then a else b }

  function Max(a: real, b: real): real { if a >= b then a else b }

  /** Clamps a haptic parameter into [0, 1]: `max(0, min(1, v))`. */
  function Clamp(v: real): (r: real)
    ensures 0.0 <= r <= 1.0
    ensures 0.0 <= v <= 1.0 ==> r == v
    ensures v < 0.0 ==> r == 0.0
    ensures v > 1.0 ==> r == 1.0
  {
    Max(0.0, Min(1.0, v))
  }

  /** Clamps a time interval to be non-negative: `max(0, t)`. */
  function ClampTime(t: real): (r: real)
    ensures r >= 0.0
    ensures t >= 0.0 ==> r == t
    ensures t < 0.0 ==> r == 0.0
  {
    Max(0.0, t)
  }

  lemma ClampIdempotent(v: real)
    ensures Clamp(Clamp(v)) == Clamp(v)
  {
  }

  lemma ClampTimeIdempotent(t: real)
    ensures ClampTime(ClampTime(t)) == ClampTime(t)
  {
  }

  lemma ClampTimeMonotone(a: real, b: real)
    requires a <= b
    ensures ClampTime(a) <= ClampTime(b)
  {
  }
}
