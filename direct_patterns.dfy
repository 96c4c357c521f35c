/** The pattern builder behind the public entry point. It never throws:
    whenever the platform rejects a pattern it falls back to the empty
    pattern, whose construction cannot fail. */
module DirectPatterns {
  import opened HapticTypes
  import opened HapticxError
  import opened Native
  import opened FadeCurve

  /** The `catch` of every builder: a rejected pattern becomes the empty one. */
  function OrEmpty(r: Result<Pattern>): (p: Pattern)
    ensures r.Ok? ==> p == r.value
    ensures r.Err? ==> p == EmptyPattern
    ensures MakePattern(p.events, p.curves, r.Ok?).Ok?
  {
    if r.Ok? then r.value else EmptyPattern
  }

  /** One transient effect at time 0. */
  function CreateTransientPattern(intensity: real, sharpness: real, accepted: bool): (p: Pattern)
    ensures accepted ==> p == Pattern([NativeEvent(HapticTransient, intensity, sharpness, 0.0, 0.0)], [])
    ensures !accepted ==> p == EmptyPattern
  {
    OrEmpty(MakePattern([NativeEvent(HapticTransient, intensity, sharpness, 0.0, 0.0)], [], accepted))
  }

  /** One sustained effect at time 0 with sharpness 0.5, shaped by the fade
      curve. */
  method CreateContinuousPattern(duration: real, intensity: real, fadeIn: real, fadeOut: real, accepted: bool)
    returns (p: Pattern)
    ensures accepted ==> FadedContinuous(p, duration, intensity, fadeIn, fadeOut)
    ensures !accepted ==> p == EmptyPattern
  {
    var event := NativeEvent(HapticContinuous, intensity, 0.5, 0.0, duration);
    var curves := IntensityCurves(duration, intensity, fadeIn, fadeOut);
    p := OrEmpty(MakePattern([event], curves, accepted));
  }

  /** Two quick taps with increasing intensity. */
  function CreateSuccessPattern(accepted: bool): (p: Pattern)
    ensures accepted ==> p.curves == [] && p.events == [NativeEvent(HapticTransient, 0.6, 0.7, 0.0, 0.0),
                                                        NativeEvent(HapticTransient, 0.8, 0.9, 0.1, 0.0)]
    ensures InRange(p.events) && Ascending(p.events)
    ensures !accepted ==> p == EmptyPattern
  {
    OrEmpty(MakePattern([NativeEvent(HapticTransient, 0.6, 0.7, 0.0, 0.0),
                         NativeEvent(HapticTransient, 0.8, 0.9, 0.1, 0.0)], [], accepted))
  }

  /** One heavy sustained effect of 0.3 seconds. */
  function CreateErrorPattern(accepted: bool): (p: Pattern)
    ensures accepted ==> p.curves == [] && p.events == [NativeEvent(HapticContinuous, 0.9, 0.3, 0.0, 0.3)]
    ensures InRange(p.events) && Ascending(p.events)
    ensures !accepted ==> p == EmptyPattern
  {
    OrEmpty(MakePattern([NativeEvent(HapticContinuous, 0.9, 0.3, 0.0, 0.3)], [], accepted))
  }

  /** Three quick sharp taps 0.1 seconds apart. */
  function CreateWarningPattern(accepted: bool): (p: Pattern)
    ensures accepted ==> p.curves == [] && p.events == [NativeEvent(HapticTransient, 0.7, 0.9, 0.0, 0.0),
                                                        NativeEvent(HapticTransient, 0.7, 0.9, 0.1, 0.0),
                                                        NativeEvent(HapticTransient, 0.7, 0.9, 0.2, 0.0)]
    ensures InRange(p.events) && Ascending(p.events)
    ensures !accepted ==> p == EmptyPattern
  {
    OrEmpty(MakePattern([NativeEvent(HapticTransient, 0.7, 0.9, 0.0, 0.0),
                         NativeEvent(HapticTransient, 0.7, 0.9, 0.1, 0.0),
                         NativeEvent(HapticTransient, 0.7, 0.9, 0.2, 0.0)], [], accepted))
  }

  /** One light tap. */
  function CreateSelectionPattern(accepted: bool): (p: Pattern)
    ensures accepted ==> p.curves == [] && p.events == [NativeEvent(HapticTransient, 0.4, 0.6, 0.0, 0.0)]
    ensures InRange(p.events) && Ascending(p.events)
    ensures !accepted ==> p == EmptyPattern
  {
    OrEmpty(MakePattern([NativeEvent(HapticTransient, 0.4, 0.6, 0.0, 0.0)], [], accepted))
  }

  /** The dispatch on the feedback kind. A pattern is always returned, the
      empty one when the platform rejects the intended one. */
  method CreatePattern(feedback: HapticFeedback, accepted: bool) returns (p: Pattern)
    ensures !accepted ==> p == EmptyPattern
    ensures feedback.Tap? ==> p == CreateTransientPattern(feedback.intensity.Raw(), feedback.sharpness.Raw(), accepted)
    ensures feedback.Tap? && accepted ==> InRange(p.events) && |p.events| == 1 && p.events[0].eventType == HapticTransient
    ensures feedback.Continuous? && accepted ==>
              FadedContinuous(p, feedback.duration, feedback.intensity.Raw(), feedback.fadeIn, feedback.fadeOut)
    ensures feedback.Success? ==> p == CreateSuccessPattern(accepted)
    ensures feedback.Error? ==> p == CreateErrorPattern(accepted)
    ensures feedback.Warning? ==> p == CreateWarningPattern(accepted)
    ensures feedback.Selection? ==> p == CreateSelectionPattern(accepted)
  {
    match feedback {
      case Tap(intensity, sharpness) =>
        p := CreateTransientPattern(intensity.Raw(), sharpness.Raw(), accepted);
      case Continuous(duration, intensity, fadeIn, fadeOut) =>
        p := CreateContinuousPattern(duration, intensity.Raw(), fadeIn, fadeOut, accepted);
      case Success =>
        p := CreateSuccessPattern(accepted);
      case Error =>
        p := CreateErrorPattern(accepted);
      case Warning =>
        p := CreateWarningPattern(accepted);
      case Selection =>
        p := CreateSelectionPattern(accepted);
    }
  }
}
