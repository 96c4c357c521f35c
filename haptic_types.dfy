/** The older level and feedback types used by the public entry point and
    the direct pattern builder. */
module HapticTypes {
  import opened HapticxUtils
  import HapticxIntensity
  import HapticxSharpness

  datatype HapticIntensity = Light | Medium | Heavy | Custom(level: real)
  {
    function Raw(): (r: real)
      ensures 0.0 <= r <= 1.0
      ensures Custom? ==> r == Clamp(level)
    {
      match this
      case Light => 0.3
      case Medium => 0.7
      case Heavy => 1.0
      case Custom(v) => Max(0.0, Min(1.0, v))
    }
  }

  datatype HapticSharpness = Soft | Medium | Sharp | Custom(level: real)
  {
    function Raw(): (r: real)
      ensures 0.0 <= r <= 1.0
      ensures Custom? ==> r == Clamp(level)
    {
      match this
      case Soft => 0.2
      case Medium => 0.5
      case Sharp => 0.8
      case Custom(v) => Max(0.0, Min(1.0, v))
    }
  }

  datatype HapticFeedback =
    | Tap(intensity: HapticIntensity, sharpness: HapticSharpness)
    | Continuous(duration: real, intensity: HapticIntensity, fadeIn: real, fadeOut: real)
    | Success
    | Error
    | Warning
    | Selection

  /** The plain `tap` shorthand. */
  function DefaultTap(): (f: HapticFeedback)
    ensures f.Tap? && f.intensity == HapticIntensity.Medium && f.sharpness == HapticSharpness.Medium
  {
    HapticFeedback.Tap(HapticIntensity.Medium, HapticSharpness.Medium)
  }

  function TapWith(intensity: HapticIntensity): (f: HapticFeedback)
    ensures f.Tap? && f.intensity == intensity && f.sharpness == HapticSharpness.Medium
  {
    HapticFeedback.Tap(intensity, HapticSharpness.Medium)
  }

  function Buzz(duration: real, intensity: HapticIntensity := HapticIntensity.Medium,
                fadeIn: real := 0.0, fadeOut: real := 0.0): (f: HapticFeedback)
    ensures f.Continuous?
    ensures f.duration == duration && f.intensity == intensity
    ensures f.fadeIn == fadeIn && f.fadeOut == fadeOut
  {
    HapticFeedback.Continuous(duration, intensity, fadeIn, fadeOut)
  }

  lemma ShorthandDefaults(d: real)
    ensures DefaultTap() == TapWith(HapticIntensity.Medium)
    ensures Buzz(d) == HapticFeedback.Continuous(d, HapticIntensity.Medium, 0.0, 0.0)
  {
  }

  /** The older levels resolve exactly like the newer ones. */
  lemma LevelsAgree(v: real)
    ensures HapticIntensity.Light.Raw() == HapticxIntensity.Intensity.Light.Raw()
    ensures HapticIntensity.Medium.Raw() == HapticxIntensity.Intensity.Medium.Raw()
    ensures HapticIntensity.Heavy.Raw() == HapticxIntensity.Intensity.Heavy.Raw()
    ensures HapticIntensity.Custom(v).Raw() == HapticxIntensity.Intensity.Custom(v).Raw()
    ensures HapticSharpness.Soft.Raw() == HapticxSharpness.Sharpness.Soft.Raw()
    ensures HapticSharpness.Medium.Raw() == HapticxSharpness.Sharpness.Medium.Raw()
    ensures HapticSharpness.Sharp.Raw() == HapticxSharpness.Sharpness.Sharp.Raw()
    ensures HapticSharpness.Custom(v).Raw() == HapticxSharpness.Sharpness.Custom(v).Raw()
  {
  }
}
