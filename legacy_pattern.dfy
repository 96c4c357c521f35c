/** The older pattern provider. Unlike the builder behind the public entry
    point, every platform rejection is thrown to the caller; event lists are
    mapped one to one, without sorting or moving any time, and a wait in
    the list is rejected. */
module LegacyPattern {
  import opened HapticxEvent
  import opened HapticxFeedback
  import opened HapticxError
  import opened Native
  import opened FadeCurve
  import HapticxIntensity
  import HapticxSharpness
  import EventProcessor
  import DirectPatterns

  /** A tap keeps its levels and time; a continuous event gets the fixed
      sharpness 0.5; a wait is refused with `engineNotInitialized`. */
  function CreateCHEvent(e: Event): (r: Result<NativeEvent>)
    ensures r.Err? <==> e.Wait?
    ensures r.Err? ==> r.error == Haptic(EngineNotInitialized)
    ensures e.Tap? ==> r == Ok(NativeEvent(HapticTransient, e.intensity.Raw(), e.sharpness.Raw(), e.at, 0.0))
    ensures e.Continuous? ==> r == Ok(NativeEvent(HapticContinuous, e.intensity.Raw(), 0.5, e.at, e.duration.Raw()))
  {
    match e
    case Tap(i, s, t) => Ok(NativeEvent(HapticTransient, i.Raw(), s.Raw(), t, 0.0))
    case Continuous(d, i, _, t) => Ok(NativeEvent(HapticContinuous, i.Raw(), 0.5, t, d.Raw()))
    case Wait(_) => Err(Haptic(EngineNotInitialized))
  }

  /** Compared with the newer processor's conversion, a tap is converted
      the same way and a continuous event differs only in its sharpness. */
  lemma CreateCHEventVersusProcessor(e: Event)
    requires !e.Wait?
    ensures CreateCHEvent(e).Ok?
    ensures e.Tap? ==> CreateCHEvent(e).value == EventProcessor.ConvertToCHEvent(e)
    ensures e.Continuous? ==> CreateCHEvent(e).value == EventProcessor.ConvertToCHEvent(e).(sharpness := 0.5)
  {
  }

  /** `map` with a throwing body: the first wait stops the conversion. */
  function CreateCHEvents(events: seq<Event>): (r: Result<seq<NativeEvent>>)
    ensures r.Ok? <==> AllTimed(events)
    ensures r.Err? ==> r.error == Haptic(EngineNotInitialized)
    ensures r.Ok? ==> |r.value| == |events|
    ensures r.Ok? ==> forall k :: 0 <= k < |events| ==> CreateCHEvent(events[k]) == Ok(r.value[k])
  {
    if events == [] then Ok([])
    else
      match CreateCHEvent(events[0])
      case Err(e) => Err(e)
      case Ok(n) =>
        assert events == [events[0]] + events[1..];
        match CreateCHEvents(events[1..])
        case Err(e) => Err(e)
        case Ok(rest) => Ok([n] + rest)
  }

  /** The events' pattern: each event becomes one native event in input
      order and at its own time; a wait, or a rejection by the platform,
      is thrown. */
  function CreatePatternForEvents(events: seq<Event>, accepted: bool): (r: Result<Pattern>)
    ensures r.Ok? <==> AllTimed(events) && (accepted || events == [])
    ensures !AllTimed(events) ==> r == Err(Haptic(EngineNotInitialized))
    ensures AllTimed(events) && !r.Ok? ==> r == Err(NativeRejected)
    ensures r.Ok? ==> r.value.curves == [] && |r.value.events| == |events|
    ensures r.Ok? ==> forall k :: 0 <= k < |events| ==>
              Ok(r.value.events[k]) == CreateCHEvent(events[k]) && r.value.events[k].relativeTime == events[k].at
  {
    match CreateCHEvents(events)
    case Err(e) => Err(e)
    case Ok(native) => MakePattern(native, [], accepted)
  }

  /** Events out of time order stay out of order: nothing is sorted. */
  lemma EventsNotSorted()
    ensures var late := Event.Tap(HapticxIntensity.Intensity.Medium, HapticxSharpness.Sharpness.Medium, 0.2);
            var early := Event.Tap(HapticxIntensity.Intensity.Medium, HapticxSharpness.Sharpness.Medium, 0.1);
            var r := CreatePatternForEvents([late, early], true);
            r.Ok? && !Ascending(r.value.events)
  {
    var late := Event.Tap(HapticxIntensity.Intensity.Medium, HapticxSharpness.Sharpness.Medium, 0.2);
    var early := Event.Tap(HapticxIntensity.Intensity.Medium, HapticxSharpness.Sharpness.Medium, 0.1);
    var r := CreatePatternForEvents([late, early], true);
    assert r.value.events[0].relativeTime == 0.2;
    assert r.value.events[1].relativeTime == 0.1;
  }

  function CreateTransientPattern(intensity: real, sharpness: real, accepted: bool): (r: Result<Pattern>)
    ensures r.Ok? <==> accepted
    ensures r.Err? ==> r.error == NativeRejected
    ensures r.Ok? ==> r.value == Pattern([NativeEvent(HapticTransient, intensity, sharpness, 0.0, 0.0)], [])
  {
    MakePattern([NativeEvent(HapticTransient, intensity, sharpness, 0.0, 0.0)], [], accepted)
  }

  method CreateContinuousPattern(duration: real, intensity: real, fadeIn: real, fadeOut: real, accepted: bool)
    returns (r: Result<Pattern>)
    ensures r.Ok? <==> accepted
    ensures r.Err? ==> r.error == NativeRejected
    ensures r.Ok? ==> FadedContinuous(r.value, duration, intensity, fadeIn, fadeOut)
  {
    var event := NativeEvent(HapticContinuous, intensity, 0.5, 0.0, duration);
    var curves := IntensityCurves(duration, intensity, fadeIn, fadeOut);
    r := MakePattern([event], curves, accepted);
  }

  function CreateSuccessPattern(accepted: bool): (r: Result<Pattern>)
    ensures r.Ok? <==> accepted
    ensures r.Err? ==> r.error == NativeRejected
    ensures r.Ok? ==> r.value.curves == [] && r.value.events == [NativeEvent(HapticTransient, 0.6, 0.7, 0.0, 0.0),
                                                                 NativeEvent(HapticTransient, 0.8, 0.9, 0.1, 0.0)]
  {
    MakePattern([NativeEvent(HapticTransient, 0.6, 0.7, 0.0, 0.0),
                 NativeEvent(HapticTransient, 0.8, 0.9, 0.1, 0.0)], [], accepted)
  }

  function CreateErrorPattern(accepted: bool): (r: Result<Pattern>)
    ensures r.Ok? <==> accepted
    ensures r.Err? ==> r.error == NativeRejected
    ensures r.Ok? ==> r.value.curves == [] && r.value.events == [NativeEvent(HapticContinuous, 0.9, 0.3, 0.0, 0.3)]
  {
    MakePattern([NativeEvent(HapticContinuous, 0.9, 0.3, 0.0, 0.3)], [], accepted)
  }

  function CreateWarningPattern(accepted: bool): (r: Result<Pattern>)
    ensures r.Ok? <==> accepted
    ensures r.Err? ==> r.error == NativeRejected
    ensures r.Ok? ==> r.value.curves == [] && r.value.events == [NativeEvent(HapticTransient, 0.7, 0.9, 0.0, 0.0),
                                                                 NativeEvent(HapticTransient, 0.7, 0.9, 0.1, 0.0),
                                                                 NativeEvent(HapticTransient, 0.7, 0.9, 0.2, 0.0)]
  {
    MakePattern([NativeEvent(HapticTransient, 0.7, 0.9, 0.0, 0.0),
                 NativeEvent(HapticTransient, 0.7, 0.9, 0.1, 0.0),
                 NativeEvent(HapticTransient, 0.7, 0.9, 0.2, 0.0)], [], accepted)
  }

  function CreateSelectionPattern(accepted: bool): (r: Result<Pattern>)
    ensures r.Ok? <==> accepted
    ensures r.Err? ==> r.error == NativeRejected
    ensures r.Ok? ==> r.value.curves == [] && r.value.events == [NativeEvent(HapticTransient, 0.4, 0.6, 0.0, 0.0)]
  {
    MakePattern([NativeEvent(HapticTransient, 0.4, 0.6, 0.0, 0.0)], [], accepted)
  }

  /** The builder behind the public entry point is this provider with every
      thrown rejection replaced by the empty pattern: same constants, same
      transient and same fade curve. */
  lemma DirectIsLegacyOrEmpty(intensity: real, sharpness: real, accepted: bool)
    ensures DirectPatterns.CreateTransientPattern(intensity, sharpness, accepted)
            == DirectPatterns.OrEmpty(CreateTransientPattern(intensity, sharpness, accepted))
    ensures DirectPatterns.CreateSuccessPattern(accepted) == DirectPatterns.OrEmpty(CreateSuccessPattern(accepted))
    ensures DirectPatterns.CreateErrorPattern(accepted) == DirectPatterns.OrEmpty(CreateErrorPattern(accepted))
    ensures DirectPatterns.CreateWarningPattern(accepted) == DirectPatterns.OrEmpty(CreateWarningPattern(accepted))
    ensures DirectPatterns.CreateSelectionPattern(accepted) == DirectPatterns.OrEmpty(CreateSelectionPattern(accepted))
  {
  }

  /** The dispatch on the feedback kind; a sequence is handed to the event
      list overload and every rejection is thrown. */
  method CreatePattern(feedback: Feedback, accepted: bool) returns (r: Result<Pattern>)
    ensures feedback.Sequence? ==> r == CreatePatternForEvents(feedback.events, accepted)
    ensures !feedback.Sequence? ==> (r.Ok? <==> accepted) && (r.Err? ==> r.error == NativeRejected)
    ensures feedback.Tap? ==> r == CreateTransientPattern(feedback.intensity.Raw(), feedback.sharpness.Raw(), accepted)
    ensures feedback.Continuous? && r.Ok? ==>
              FadedContinuous(r.value, feedback.duration, feedback.intensity.Raw(), feedback.fadeIn, feedback.fadeOut)
    ensures feedback.Success? ==> r == CreateSuccessPattern(accepted)
    ensures feedback.Error? ==> r == CreateErrorPattern(accepted)
    ensures feedback.Warning? ==> r == CreateWarningPattern(accepted)
    ensures feedback.Selection? ==> r == CreateSelectionPattern(accepted)
  {
    match feedback {
      case Tap(intensity, sharpness) =>
        r := CreateTransientPattern(intensity.Raw(), sharpness.Raw(), accepted);
      case Continuous(duration, intensity, fadeIn, fadeOut) =>
        r := CreateContinuousPattern(duration, intensity.Raw(), fadeIn, fadeOut, accepted);
      case Success =>
        r := CreateSuccessPattern(accepted);
      case Error =>
        r := CreateErrorPattern(accepted);
      case Warning =>
        r := CreateWarningPattern(accepted);
      case Selection =>
        r := CreateSelectionPattern(accepted);
      case Sequence(events) =>
        r := CreatePatternForEvents(events, accepted);
    }
  }
}
