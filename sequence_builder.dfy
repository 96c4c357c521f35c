/** A fluent accumulator of events with a time cursor: taps and continuous
    effects are stamped at the cursor, waits move the cursor forward. The
    Swift methods return the builder for chaining; here they are plain
    calls on the same object. */
module SequenceBuilder {
  import opened HapticxIntensity
  import opened HapticxSharpness
  import opened HapticxDuration
  import opened HapticxEvent
  import opened EventOrder
  import ConvertibleFeedback
  import FeedbackConverter

  class HapticxSequenceBuilder {
    var events: seq<Event>
    var cursor: real

    /** Since the cursor never moves back, the events are appended in time
        order and none lies after the cursor. */
    ghost predicate Valid()
      reads this
    {
      && AllTimed(events)
      && SortedByTime(events)
      && cursor >= 0.0
      && forall k :: 0 <= k < |events| ==> 0.0 <= events[k].RelativeTime() <= cursor
    }

    constructor ()
      ensures Valid() && events == [] && cursor == 0.0
    {
      events := [];
      cursor := 0.0;
    }

    /** Appends a tap at the cursor. */
    method Tap(intensity: Intensity := Intensity.Medium, sharpness: Sharpness := Sharpness.Medium)
      requires Valid()
      modifies this
      ensures Valid()
      ensures events == old(events) + [Event.Tap(intensity, sharpness, old(cursor))]
      ensures cursor == old(cursor)
    {
      events := events + [Event.Tap(intensity, sharpness, cursor)];
    }

    /** Appends a continuous effect at the cursor. */
    method Continuous(duration: Duration, intensity: Intensity := Intensity.Medium,
                      sharpness: Sharpness := Sharpness.Medium)
      requires Valid()
      modifies this
      ensures Valid()
      ensures events == old(events) + [Event.Continuous(duration, intensity, sharpness, old(cursor))]
      ensures cursor == old(cursor)
    {
      events := events + [Event.Continuous(duration, intensity, sharpness, cursor)];
    }

    /** Moves the cursor forward by the duration; never backwards. */
    method Wait(duration: Duration)
      requires Valid()
      modifies this
      ensures Valid()
      ensures events == old(events)
      ensures cursor == old(cursor) + duration.Raw() && cursor >= old(cursor)
    {
      cursor := cursor + duration.Raw();
    }

    /** The events sorted by time, which is the order they were appended in. */
    method Build() returns (r: seq<Event>)
      requires Valid()
      ensures AllTimed(r) && r == SortByTime(events)
      ensures r == events
    {
      SortOfSorted(events);
      r := SortByTime(events);
    }

    method Success()
      requires Valid()
      modifies this
      ensures Valid()
      ensures events == old(events) + [Event.Tap(Intensity.Medium, Sharpness.Sharp, old(cursor)),
                                       Event.Tap(Intensity.Heavy, Sharpness.Sharp, old(cursor) + 0.1)]
      ensures cursor == old(cursor) + 0.1
    {
      Tap(Intensity.Medium, Sharpness.Sharp);
      Wait(Duration.Short);
      Tap(Intensity.Heavy, Sharpness.Sharp);
    }

    method Error()
      requires Valid()
      modifies this
      ensures Valid()
      ensures events == old(events) + [Event.Continuous(Duration.Short, Intensity.Heavy, Sharpness.Soft, old(cursor))]
      ensures cursor == old(cursor)
    {
      Continuous(Duration.Short, Intensity.Heavy, Sharpness.Soft);
    }

    method Warning()
      requires Valid()
      modifies this
      ensures Valid()
      ensures events == old(events) + [Event.Tap(Intensity.Medium, Sharpness.Sharp, old(cursor)),
                                       Event.Tap(Intensity.Medium, Sharpness.Sharp, old(cursor) + 0.1),
                                       Event.Tap(Intensity.Medium, Sharpness.Sharp, old(cursor) + 0.2)]
      ensures cursor == old(cursor) + 0.2
    {
      Tap(Intensity.Medium, Sharpness.Sharp);
      Wait(Duration.Short);
      Tap(Intensity.Medium, Sharpness.Sharp);
      Wait(Duration.Short);
      Tap(Intensity.Medium, Sharpness.Sharp);
    }

    method Selection()
      requires Valid()
      modifies this
      ensures Valid()
      ensures events == old(events) + [Event.Tap(Intensity.Light, Sharpness.Medium, old(cursor))]
      ensures cursor == old(cursor)
    {
      Tap(Intensity.Light, Sharpness.Medium);
    }
  }

  /** `.tap().wait(.short).tap().build()` gives two default taps 0.1 apart. */
  method TapWaitTap() returns (r: seq<Event>)
    ensures r == [Event.Tap(Intensity.Medium, Sharpness.Medium, 0.0),
                  Event.Tap(Intensity.Medium, Sharpness.Medium, 0.1)]
  {
    var b := new HapticxSequenceBuilder();
    b.Tap();
    b.Wait(Duration.Short);
    b.Tap();
    r := b.Build();
  }

  /** A fresh builder's `success()` builds exactly what the converter gives
      for success. */
  method SuccessMatchesConverter() returns (r: seq<Event>)
    ensures r == FeedbackConverter.Convert(ConvertibleFeedback.Success)
  {
    var b := new HapticxSequenceBuilder();
    b.Success();
    r := b.Build();
  }

  method WarningMatchesConverter() returns (r: seq<Event>)
    ensures r == FeedbackConverter.Convert(ConvertibleFeedback.Warning)
  {
    var b := new HapticxSequenceBuilder();
    b.Warning();
    r := b.Build();
  }

  method ErrorMatchesConverter() returns (r: seq<Event>)
    ensures r == FeedbackConverter.Convert(ConvertibleFeedback.Error)
  {
    var b := new HapticxSequenceBuilder();
    b.Error();
    r := b.Build();
  }

  method SelectionMatchesConverter() returns (r: seq<Event>)
    ensures r == FeedbackConverter.Convert(ConvertibleFeedback.Selection)
  {
    var b := new HapticxSequenceBuilder();
    b.Selection();
    r := b.Build();
  }
}
