/** The intensity-control curve that shapes a continuous effect with a
    fade-in and a fade-out. Both older pattern builders compute it with the
    same code. */
module FadeCurve {
  import opened HapticxUtils
  import opened Native

  /** The control points of a fade: the first point at time 0 (silent when
      fading in), the end of the fade-in, the start of the fade-out when it
      lies before the end, and the end point (silent when fading out, held
      at full level when only fading in and the fade-in ends early). */
  ghost predicate FadePoints(p: seq<ControlPoint>, duration: real, intensity: real, fadeIn: real, fadeOut: real)
  {
    && 2 <= |p| <= 4
    && p[0] == ControlPoint(0.0, if fadeIn > 0.0 then 0.0 else intensity)
    && (fadeIn > 0.0 ==> p[1] == ControlPoint(Min(fadeIn, duration), intensity))
    && (fadeOut > 0.0 ==>
          var fadeStart := Max(fadeIn, duration - fadeOut);
          && p[|p| - 1] == ControlPoint(duration, 0.0)
          && |p| == (if fadeIn > 0.0 then 2 else 1) + (if fadeStart < duration then 1 else 0) + 1
          && (fadeStart < duration ==> p[|p| - 2] == ControlPoint(fadeStart, intensity)))
    && (fadeOut <= 0.0 ==>
          if fadeIn > 0.0 && fadeIn < duration then |p| == 3 && p[2] == ControlPoint(duration, intensity)
          else |p| == 2)
  }

  ghost predicate NondecreasingWithin(p: seq<ControlPoint>, duration: real)
  {
    && (forall k :: 0 <= k < |p| ==> 0.0 <= p[k].relativeTime <= duration)
    && (forall i, j :: 0 <= i < j < |p| ==> p[i].relativeTime <= p[j].relativeTime)
  }

  /** A continuous pattern of both older builders: one sustained effect at
      time 0 with a fixed sharpness of 0.5, plus the fade curve when there
      is a fade. */
  ghost predicate FadedContinuous(p: Pattern, duration: real, intensity: real, fadeIn: real, fadeOut: real)
  {
    && p.events == [NativeEvent(HapticContinuous, intensity, 0.5, 0.0, duration)]
    && |p.curves| == (if fadeIn > 0.0 || fadeOut > 0.0 then 1 else 0)
    && (p.curves != [] ==>
          p.curves[0].relativeTime == 0.0 && FadePoints(p.curves[0].controlPoints, duration, intensity, fadeIn, fadeOut))
  }

  /** The curve list of a continuous effect: empty without fades, otherwise
      one intensity-control curve starting at 0. */
  method IntensityCurves(duration: real, intensity: real, fadeIn: real, fadeOut: real)
    returns (curves: seq<ParameterCurve>)
    ensures |curves| == (if fadeIn > 0.0 || fadeOut > 0.0 then 1 else 0)
    ensures curves != [] ==> curves[0].relativeTime == 0.0
    ensures curves != [] ==> FadePoints(curves[0].controlPoints, duration, intensity, fadeIn, fadeOut)
  {
    curves := [];
    if fadeIn > 0.0 || fadeOut > 0.0 {
      var controlPoints: seq<ControlPoint> := [];
      if fadeIn > 0.0 {
        controlPoints := controlPoints + [ControlPoint(0.0, 0.0)];
        controlPoints := controlPoints + [ControlPoint(Min(fadeIn, duration), intensity)];
      } else {
        controlPoints := controlPoints + [ControlPoint(0.0, intensity)];
      }
      if fadeOut > 0.0 {
        var fadeStartTime := Max(fadeIn, duration - fadeOut);
        if fadeStartTime < duration {
          controlPoints := controlPoints + [ControlPoint(fadeStartTime, intensity)];
        }
        controlPoints := controlPoints + [ControlPoint(duration, 0.0)];
      } else if fadeIn > 0.0 && fadeIn < duration {
        controlPoints := controlPoints + [ControlPoint(duration, intensity)];
      }
      curves := curves + [IntensityControl(controlPoints, 0.0)];
    }
  }

  /** With a non-negative duration and fade-in, the control points never go
      back in time and stay within the effect. */
  lemma FadePointsOrdered(p: seq<ControlPoint>, duration: real, intensity: real, fadeIn: real, fadeOut: real)
    requires FadePoints(p, duration, intensity, fadeIn, fadeOut)
    requires fadeIn > 0.0 || fadeOut > 0.0
    requires duration >= 0.0 && fadeIn >= 0.0
    ensures NondecreasingWithin(p, duration)
  {
    var fadeStart := Max(fadeIn, duration - fadeOut);
    if fadeIn > 0.0 && fadeOut > 0.0 {
      if fadeStart < duration {
        assert p == [p[0], p[1], p[2], p[3]];
      } else {
        assert p == [p[0], p[1], p[2]];
      }
    } else if fadeIn > 0.0 {
      if fadeIn < duration {
        assert p == [p[0], p[1], p[2]];
      } else {
        assert p == [p[0], p[1]];
      }
    } else {
      if fadeStart < duration {
        assert p == [p[0], p[1], p[2]];
      } else {
        assert p == [p[0], p[1]];
      }
    }
  }
}
