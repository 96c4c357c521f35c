/** Records standing for the platform's native haptic objects: events,
    intensity-control curves and the pattern built from them. Whether the
    platform accepts a pattern is an oracle passed in by the caller. */
module Native {
  import opened HapticxError

  datatype EventType = HapticTransient | HapticContinuous

  /** A native event; a transient effect has duration 0. */
  datatype NativeEvent = NativeEvent(eventType: EventType, intensity: real, sharpness: real,
                                     relativeTime: real, duration: real)

  datatype ControlPoint = ControlPoint(relativeTime: real, value: real)

  /** An intensity-control curve starting at `relativeTime`. */
  datatype ParameterCurve = IntensityControl(controlPoints: seq<ControlPoint>, relativeTime: real)

  datatype Pattern = Pattern(events: seq<NativeEvent>, curves: seq<ParameterCurve>)

  const EmptyPattern: Pattern := Pattern([], [])

  /** Native pattern construction. `accepted` says whether the platform
      accepts these events and curves; the empty pattern is always accepted. */
  function MakePattern(events: seq<NativeEvent>, curves: seq<ParameterCurve>, accepted: bool): (r: Result<Pattern>)
    ensures r.Ok? <==> accepted || (events == [] && curves == [])
    ensures r.Ok? ==> r.value.events == events && r.value.curves == curves
    ensures r.Err? ==> r.error == NativeRejected
  {
    if accepted || (events == [] && curves == []) then Ok(Pattern(events, curves)) else Err(NativeRejected)
  }

  /** Every event has levels in [0, 1], a non-negative time and a
      non-negative duration. */
  predicate InRange(events: seq<NativeEvent>)
  {
    forall e :: e in events ==>
      0.0 <= e.intensity <= 1.0 && 0.0 <= e.sharpness <= 1.0 && e.relativeTime >= 0.0 && e.duration >= 0.0
  }

  predicate Ascending(events: seq<NativeEvent>)
  {
    forall i, j :: 0 <= i < j < |events| ==> events[i].relativeTime <= events[j].relativeTime
  }
}
