/** Semantic feedback as the pattern providers see it: a continuous buzz
    with fade-in/fade-out times, and arbitrary event sequences. */
module HapticxFeedback {
  import opened HapticxIntensity
  import opened HapticxSharpness
  import opened HapticxEvent

  datatype Feedback =
    | Tap(intensity: Intensity, sharpness: Sharpness)
    | Continuous(duration: real, intensity: Intensity, fadeIn: real, fadeOut: real)
    | Success
    | Error
    | Warning
    | Selection
    | Sequence(events: seq<Event>)

  /** The plain `tap` shorthand. */
  function DefaultTap(): (f: Feedback)
    ensures f.Tap? && f.intensity == Intensity.Medium && f.sharpness == Sharpness.Medium
  {
    Feedback.Tap(Intensity.Medium, Sharpness.Medium)
  }

  /** `tap(i)`: the given intensity at medium sharpness. */
  function TapWith(intensity: Intensity): (f: Feedback)
    ensures f.Tap? && f.intensity == intensity && f.sharpness == Sharpness.Medium
  {
    Feedback.Tap(intensity, Sharpness.Medium)
  }

  /** `buzz(d)`: a continuous effect, medium intensity and no fades by default. */
  function Buzz(duration: real, intensity: Intensity := Intensity.Medium,
                fadeIn: real := 0.0, fadeOut: real := 0.0): (f: Feedback)
    ensures f.Continuous?
    ensures f.duration == duration && f.intensity == intensity
    ensures f.fadeIn == fadeIn && f.fadeOut == fadeOut
  {
    Feedback.Continuous(duration, intensity, fadeIn, fadeOut)
  }

  lemma ShorthandDefaults(d: real)
    ensures DefaultTap() == TapWith(Intensity.Medium)
    ensures Buzz(d) == Feedback.Continuous(d, Intensity.Medium, 0.0, 0.0)
  {
  }
}

/** Semantic feedback as both converters see it: a continuous effect has a
    duration preset, an intensity and a sharpness, and there is no sequence. */
module ConvertibleFeedback {
  import opened HapticxIntensity
  import opened HapticxSharpness
  import opened HapticxDuration

  datatype ConverterFeedback =
    | Tap(intensity: Intensity, sharpness: Sharpness)
    | Continuous(duration: Duration, intensity: Intensity, sharpness: Sharpness)
    | Success
    | Error
    | Warning
    | Selection
}
