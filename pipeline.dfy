/** The pattern provider of the pattern pipeline: a feedback is converted
    to events and the events are processed into a native pattern. */
module PatternPipeline {
  import opened HapticxEvent
  import opened HapticxError
  import opened ConvertibleFeedback
  import opened Native
  import FeedbackConverter
  import EventProcessor
  import EventOrder

  function CreatePatternForFeedback(feedback: ConverterFeedback, accepted: bool): (r: Result<Pattern>)
    ensures r == EventProcessor.Process(FeedbackConverter.Convert(feedback), accepted)
    ensures r.Ok? <==> accepted
    ensures r.Ok? ==> r.value.events != [] && InRange(r.value.events) && Ascending(r.value.events)
  {
    var events := FeedbackConverter.Convert(feedback);
    EventProcessor.Process(events, accepted)
  }

  function CreatePatternForEvents(events: seq<Event>, accepted: bool): (r: Result<Pattern>)
    requires AllTimed(events)
    ensures r == EventProcessor.Process(events, accepted)
    ensures events == [] ==> r == Ok(EmptyPattern)
  {
    EventProcessor.Process(events, accepted)
  }

  /** Success: a medium/sharp transient at 0, then a heavy/sharp one at 0.1. */
  lemma SuccessPattern()
    ensures CreatePatternForFeedback(Success, true)
      == Ok(Pattern([NativeEvent(HapticTransient, 0.7, 0.8, 0.0, 0.0),
                     NativeEvent(HapticTransient, 1.0, 0.8, 0.1, 0.0)], []))
  {
    var events := FeedbackConverter.Convert(Success);
    EventProcessor.ProcessNormalized(events);
    var native := EventProcessor.ToNativeEvents(events);
    assert native == [native[0], native[1]];
  }

  /** Warning: three medium/sharp transients at 0, 0.1 and 0.2, in order. */
  lemma WarningPattern()
    ensures CreatePatternForFeedback(Warning, true)
      == Ok(Pattern([NativeEvent(HapticTransient, 0.7, 0.8, 0.0, 0.0),
                     NativeEvent(HapticTransient, 0.7, 0.8, 0.1, 0.0),
                     NativeEvent(HapticTransient, 0.7, 0.8, 0.2, 0.0)], []))
  {
    var events := FeedbackConverter.Convert(Warning);
    WarningEventsSorted(events);
    EventProcessor.ProcessNormalized(events);
    WarningNative(events);
  }

  /** The warning's events are already in time order at non-negative times. */
  lemma WarningEventsSorted(events: seq<Event>)
    requires events == FeedbackConverter.Convert(Warning)
    ensures AllTimed(events) && EventOrder.SortedByTime(events) && EventProcessor.NonNegativeTimes(events)
  {
    forall i, j | 0 <= i < j < 3 ensures events[i].RelativeTime() <= events[j].RelativeTime() {
      assert events[i].RelativeTime() == 0.1 * i as real;
      assert events[j].RelativeTime() == 0.1 * j as real;
    }
  }

  /** The warning's events converted one by one. */
  lemma WarningNative(events: seq<Event>)
    requires events == FeedbackConverter.Convert(Warning)
    ensures AllTimed(events)
    ensures EventProcessor.ToNativeEvents(events)
      == [NativeEvent(HapticTransient, 0.7, 0.8, 0.0, 0.0),
          NativeEvent(HapticTransient, 0.7, 0.8, 0.1, 0.0),
          NativeEvent(HapticTransient, 0.7, 0.8, 0.2, 0.0)]
  {
    var native := EventProcessor.ToNativeEvents(events);
    var tap := NativeEvent(HapticTransient, 0.7, 0.8, 0.0, 0.0);
    assert native[0] == tap;
    assert native[1] == tap.(relativeTime := 0.1);
    assert native[2] == tap.(relativeTime := 0.2);
    assert native == [native[0], native[1], native[2]];
  }
}
