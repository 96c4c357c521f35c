/** The older converter and processor pair. This processor resolves waits:
    a running offset collects the durations of the waits seen so far, and
    every other event is moved by that offset, clamped to be non-negative
    and then sorted by time. */
module DefaultConverters {
  import opened HapticxUtils
  import opened HapticxIntensity
  import opened HapticxSharpness
  import opened HapticxDuration
  import opened HapticxEvent
  import opened HapticxError
  import opened ConvertibleFeedback
  import opened EventOrder
  import opened Native
  import FeedbackConverter
  import EventProcessor

  function Convert(f: ConverterFeedback): (r: seq<Event>)
    ensures FeedbackConverter.WellFormedCue(r)
    ensures f.Tap? ==> r == [Event.Tap(f.intensity, f.sharpness, 0.0)]
    ensures f.Continuous? ==> r == [Event.Continuous(f.duration, f.intensity, f.sharpness, 0.0)]
  {
    match f
    case Tap(i, s) => [Event.Tap(i, s, 0.0)]
    case Continuous(d, i, s) => [Event.Continuous(d, i, s, 0.0)]
    case Success => [Event.Tap(Intensity.Medium, Sharpness.Sharp, 0.0),
                     Event.Tap(Intensity.Heavy, Sharpness.Sharp, 0.1)]
    case Error => [Event.Continuous(Duration.Short, Intensity.Heavy, Sharpness.Soft, 0.0)]
    case Warning => [Event.Tap(Intensity.Medium, Sharpness.Sharp, 0.0),
                     Event.Tap(Intensity.Medium, Sharpness.Sharp, 0.1),
                     Event.Tap(Intensity.Medium, Sharpness.Sharp, 0.2)]
    case Selection => [Event.Tap(Intensity.Light, Sharpness.Medium, 0.0)]
  }

  /** Both converters produce the same events for every feedback. */
  lemma ConvertersAgree(f: ConverterFeedback)
    ensures Convert(f) == FeedbackConverter.Convert(f)
  {
  }

  /** Sum of the durations of the waits in `s`. */
  function WaitSum(s: seq<Event>): (r: real)
    ensures r >= 0.0
  {
    if s == [] then 0.0
    else
      var last := s[|s| - 1];
      WaitSum(s[..|s| - 1]) + (if last.Wait? then last.duration.Raw() else 0.0)
  }

  /** Number of events in `s` that are not waits. */
  function CountTimed(s: seq<Event>): nat
  {
    if s == [] then 0 else CountTimed(s[..|s| - 1]) + (if s[|s| - 1].Wait? then 0 else 1)
  }

  /** The event moved by `offset`, its time clamped to be non-negative. */
  function Shift(e: Event, offset: real): (r: Event)
    requires !e.Wait?
    ensures !r.Wait? && r.Tap? == e.Tap?
    ensures r.RelativeTime() == ClampTime(e.RelativeTime() + offset)
    ensures r.intensity == e.intensity && r.sharpness == e.sharpness
    ensures e.Continuous? ==> r.duration == e.duration
  {
    match e
    case Tap(i, s, t) => Event.Tap(i, s, ClampTime(t + offset))
    case Continuous(d, i, s, t) => Event.Continuous(d, i, s, ClampTime(t + offset))
  }

  /** Reference definition of the offset walk, before sorting: each non-wait
      event, in input order, shifted by the waits that precede it. */
  function Resolved(s: seq<Event>): (r: seq<Event>)
    ensures AllTimed(r) && |r| == CountTimed(s)
    ensures EventProcessor.NonNegativeTimes(r)
  {
    if s == [] then []
    else
      var prefix := s[..|s| - 1];
      var last := s[|s| - 1];
      var r := Resolved(prefix) + (if last.Wait? then [] else [Shift(last, WaitSum(prefix))]);
      assert forall k :: 0 <= k < |Resolved(prefix)| ==> r[k] == Resolved(prefix)[k];
      r
  }

  /** `handleTimeOffsets`: the loop over the input with a running offset. */
  method HandleTimeOffsets(events: seq<Event>) returns (r: seq<Event>)
    ensures AllTimed(r) && r == SortByTime(Resolved(events))
    ensures SortedByTime(r) && EventProcessor.NonNegativeTimes(r)
    ensures multiset(r) == multiset(Resolved(events)) && |r| == CountTimed(events)
  {
    var processed: seq<Event> := [];
    var timeOffset: real := 0.0;
    var i := 0;
    while i < |events|
      invariant 0 <= i <= |events|
      invariant processed == Resolved(events[..i])
      invariant timeOffset == WaitSum(events[..i])
    {
      var event := events[i];
      assert events[..i + 1][..i] == events[..i];
      match event {
        case Wait(d) =>
          timeOffset := timeOffset + d.Raw();
        case Tap(intensity, sharpness, time) =>
          var finalTime := ClampTime(time + timeOffset);
          processed := processed + [Event.Tap(intensity, sharpness, finalTime)];
        case Continuous(duration, intensity, sharpness, time) =>
          var finalTime := ClampTime(time + timeOffset);
          processed := processed + [Event.Continuous(duration, intensity, sharpness, finalTime)];
      }
      i := i + 1;
    }
    assert events[..i] == events;
    r := SortByTime(processed);
    forall k | 0 <= k < |r| ensures r[k].RelativeTime() >= 0.0 {
      assert r[k] in multiset(processed);
      var j :| 0 <= j < |processed| && processed[j] == r[k];
    }
  }

  /** The event at input position `j` (not a wait) is the
      `CountTimed(s[..j])`-th resolved event: its time is its own time plus
      the durations of the earlier waits, clamped, and the rest is kept. */
  lemma {:induction false} ResolvedAt(s: seq<Event>, j: nat)
    requires j < |s| && !s[j].Wait?
    ensures CountTimed(s[..j]) < |Resolved(s)|
    ensures Resolved(s)[CountTimed(s[..j])] == Shift(s[j], WaitSum(s[..j]))
  {
    var prefix := s[..|s| - 1];
    if j == |s| - 1 {
      assert s[..j] == prefix;
    } else {
      assert prefix[..j] == s[..j] && prefix[j] == s[j];
      ResolvedAt(prefix, j);
    }
  }

  /** Waits after the last event change nothing. */
  lemma {:induction false} TrailingWaits(s: seq<Event>, waits: seq<Event>)
    requires forall w :: w in waits ==> w.Wait?
    ensures Resolved(s + waits) == Resolved(s)
  {
    if waits != [] {
      var all := s + waits;
      var shorter := waits[..|waits| - 1];
      assert all[..|all| - 1] == s + shorter;
      assert all[|all| - 1] == waits[|waits| - 1] && waits[|waits| - 1] in waits;
      assert Resolved(all) == Resolved(s + shorter);
      TrailingWaits(s, shorter);
    } else {
      assert s + waits == s;
    }
  }

  /** Without waits the offset is always 0, so the walk only clamps. */
  lemma {:induction false} ResolvedWaitFree(s: seq<Event>)
    requires AllTimed(s)
    ensures WaitSum(s) == 0.0
    ensures Resolved(s) == EventProcessor.ClampAll(s)
  {
    if s != [] {
      var prefix := s[..|s| - 1];
      ResolvedWaitFree(prefix);
      assert s[|s| - 1] in s;
    }
  }

  /** On wait-free input both processors normalize to the same list. */
  lemma WaitFreeAgreesWithNormalize(s: seq<Event>)
    requires AllTimed(s)
    ensures SortByTime(Resolved(s)) == EventProcessor.NormalizeEvents(s)
  {
    ResolvedWaitFree(s);
  }

  /** A wait reaching native conversion is a programming error. */
  const WaitReason: string := "Wait events should be processed before creating CHHapticEvent"

  function ToCHEvent(e: Event): (r: Result<NativeEvent>)
    ensures e.Wait? <==> r.Err?
    ensures r.Err? ==> r.error == Haptic(InvalidPattern(WaitReason))
    ensures r.Ok? ==> r.value == EventProcessor.ConvertToCHEvent(e)
  {
    match e
    case Tap(i, s, t) => Ok(NativeEvent(HapticTransient, i.Raw(), s.Raw(), t, 0.0))
    case Continuous(d, i, s, t) => Ok(NativeEvent(HapticContinuous, i.Raw(), s.Raw(), t, d.Raw()))
    case Wait(_) => Err(Haptic(InvalidPattern(WaitReason)))
  }

  /** `map` with a throwing body: the first wait stops the conversion. */
  function ToCHEvents(s: seq<Event>): (r: Result<seq<NativeEvent>>)
    ensures r.Ok? <==> AllTimed(s)
    ensures r.Err? ==> r.error == Haptic(InvalidPattern(WaitReason))
    ensures r.Ok? ==> r.value == EventProcessor.ToNativeEvents(s)
  {
    if s == [] then Ok([])
    else
      var head := ToCHEvent(s[0]);
      if head.Err? then
        assert s[0] in s;
        Err(head.error)
      else
        var tail := ToCHEvents(s[1..]);
        ToCHEventsStep(s);
        if tail.Err? then Err(tail.error) else Ok([head.value] + tail.value)
  }

  /** A list is wait-free and converts exactly when its head and tail do. */
  lemma ToCHEventsStep(s: seq<Event>)
    requires s != [] && !s[0].Wait?
    ensures AllTimed(s) <==> AllTimed(s[1..])
    ensures AllTimed(s) ==>
              EventProcessor.ToNativeEvents(s)
              == [EventProcessor.ConvertToCHEvent(s[0])] + EventProcessor.ToNativeEvents(s[1..])
  {
    var tail := s[1..];
    assert s == [s[0]] + tail;
    assert AllTimed(s) ==> AllTimed(tail) by {
      if AllTimed(s) {
        forall e | e in tail ensures !e.Wait? { assert e in s; }
      }
    }
    assert AllTimed(tail) ==> AllTimed(s) by {
      if AllTimed(tail) {
        forall e | e in s ensures !e.Wait? {
          if e != s[0] { assert e in tail; }
        }
      }
    }
    if AllTimed(s) {
      var whole := EventProcessor.ToNativeEvents(s);
      var split := [EventProcessor.ConvertToCHEvent(s[0])] + EventProcessor.ToNativeEvents(tail);
      forall k | 0 <= k < |whole| ensures whole[k] == split[k] {
        if k > 0 { assert s[k] == tail[k - 1]; }
      }
    }
  }

  /** `process`: resolve offsets, convert, build. The wait branch of the
      native conversion is never reached, so no `invalidPattern` escapes. */
  method Process(events: seq<Event>, accepted: bool) returns (r: Result<Pattern>)
    ensures r.Ok? <==> accepted || CountTimed(events) == 0
    ensures r.Err? ==> r.error == NativeRejected
    ensures r.Ok? ==> r.value.curves == [] && |r.value.events| == CountTimed(events)
    ensures r.Ok? ==> InRange(r.value.events) && Ascending(r.value.events)
    ensures r.Ok? ==> r.value.events == EventProcessor.ToNativeEvents(SortByTime(Resolved(events)))
  {
    var processed := HandleTimeOffsets(events);
    var converted := ToCHEvents(processed);
    // `toCHEvent` throws only for a wait, and none is left.
    assert converted.Ok?;
    EventProcessor.NativeOfNormalized(processed);
    r := MakePattern(converted.value, [], accepted);
  }
}
