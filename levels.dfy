/** Haptic intensity: three named presets and a clamped custom level. */
module HapticxIntensity {
  import opened HapticxUtils

  datatype Intensity = Light | Medium | Heavy | Custom(level: real)
  {
    /** The level handed to the actuator, always within [0, 1]. */
    function Raw(): (r: real)
      ensures 0.0 <= r <= 1.0
      ensures Custom? ==> r == Clamp(level)
      ensures Custom? && 0.0 <= level <= 1.0 ==> r == level
    {
      match this
      case Light => 0.3
      case Medium => 0.7
      case Heavy => 1.0
      case Custom(v) => Max(0.0, Min(1.0, v))
    }
  }

  lemma PresetsOrdered()
    ensures Light.Raw() < Medium.Raw() < Heavy.Raw()
    ensures Light.Raw() == 0.3 && Medium.Raw() == 0.7 && Heavy.Raw() == 1.0
  {
  }
}

/** Haptic sharpness: three named presets and a custom level clamped with
    the shared clamp. */
module HapticxSharpness {
  import opened HapticxUtils

  datatype Sharpness = Soft | Medium | Sharp | Custom(level: real)
  {
    /** The sharpness handed to the actuator, always within [0, 1]. */
    function Raw(): (r: real)
      ensures 0.0 <= r <= 1.0
      ensures Custom? ==> r == Clamp(level)
      ensures Custom? && 0.0 <= level <= 1.0 ==> r == level
    {
      match this
      case Soft => 0.2
      case Medium => 0.5
      case Sharp => 0.8
      case Custom(v) => Clamp(v)
    }
  }

  lemma PresetsOrdered()
    ensures Soft.Raw() < Medium.Raw() < Sharp.Raw()
    ensures Soft.Raw() == 0.2 && Medium.Raw() == 0.5 && Sharp.Raw() == 0.8
  {
  }
}

/** Haptic duration in seconds: three named presets and a custom length
    clamped to be non-negative. */
module HapticxDuration {
  import opened HapticxUtils

  datatype Duration = Short | Medium | Long | Custom(seconds: real)
  {
    /** The length in seconds, never negative. */
    function Raw(): (r: real)
      ensures r >= 0.0
      ensures Custom? && seconds >= 0.0 ==> r == seconds
      ensures Custom? && seconds < 0.0 ==> r == 0.0
    {
      match this
      case Short => 0.1
      case Medium => 0.3
      case Long => 0.8
      case Custom(v) => ClampTime(v)
    }
  }

  lemma PresetsOrdered()
    ensures Short.Raw() < Medium.Raw() < Long.Raw()
    ensures Short.Raw() == 0.1 && Medium.Raw() == 0.3 && Long.Raw() == 0.8
  {
  }
}
