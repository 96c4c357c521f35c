/** The feedback-to-events converter of the pattern pipeline: each intent
    becomes a fixed, already time-ordered list of events. */
module FeedbackConverter {
  import opened HapticxIntensity
  import opened HapticxSharpness
  import opened HapticxDuration
  import opened HapticxEvent
  import opened ConvertibleFeedback
  import opened EventOrder

  /** Events that a converter may hand to a processor: at least one, no
      wait, no negative time, ascending times. */
  predicate WellFormedCue(r: seq<Event>)
  {
    && r != []
    && AllTimed(r)
    && SortedByTime(r)
    && forall k :: 0 <= k < |r| ==> r[k].RelativeTime() >= 0.0
  }

  function Convert(f: ConverterFeedback): (r: seq<Event>)
    ensures WellFormedCue(r)
    ensures f.Tap? ==> r == [Event.Tap(f.intensity, f.sharpness, 0.0)]
    ensures f.Continuous? ==> r == [Event.Continuous(f.duration, f.intensity, f.sharpness, 0.0)]
  {
    match f
    case Tap(i, s) => [Event.Tap(i, s, 0.0)]
    case Continuous(d, i, s) => [Event.Continuous(d, i, s, 0.0)]
    case Success => [Event.Tap(Intensity.Medium, Sharpness.Sharp, 0.0),
                     Event.Tap(Intensity.Heavy, Sharpness.Sharp, 0.1)]
    case Error => [Event.Continuous(Duration.Short, Intensity.Heavy, Sharpness.Soft, 0.0)]
    case Warning => [Event.Tap(Intensity.Medium, Sharpness.Sharp, 0.0),
                     Event.Tap(Intensity.Medium, Sharpness.Sharp, 0.1),
                     Event.Tap(Intensity.Medium, Sharpness.Sharp, 0.2)]
    case Selection => [Event.Tap(Intensity.Light, Sharpness.Medium, 0.0)]
  }

  /** The canned vocabulary of the semantic cues. */
  lemma SemanticCues()
    ensures Convert(Success) == [Event.Tap(Intensity.Medium, Sharpness.Sharp, 0.0),
                                 Event.Tap(Intensity.Heavy, Sharpness.Sharp, 0.1)]
    ensures Convert(Error) == [Event.Continuous(Duration.Short, Intensity.Heavy, Sharpness.Soft, 0.0)]
    ensures Convert(Warning) == [Event.Tap(Intensity.Medium, Sharpness.Sharp, 0.0),
                                 Event.Tap(Intensity.Medium, Sharpness.Sharp, 0.1),
                                 Event.Tap(Intensity.Medium, Sharpness.Sharp, 0.2)]
    ensures Convert(Selection) == [Event.Tap(Intensity.Light, Sharpness.Medium, 0.0)]
  {
  }
}
