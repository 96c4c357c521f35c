/** The event processor of the pattern pipeline: clamps every time to be
    non-negative, sorts by time and maps each event to a native event. Its
    switch has no wait case, so it is given wait-free lists only. */
module EventProcessor {
  import opened HapticxUtils
  import opened HapticxEvent
  import opened HapticxError
  import opened EventOrder
  import opened Native

  /** The event with its time clamped to be non-negative. */
  function ClampEvent(e: Event): (c: Event)
    requires !e.Wait?
    ensures !c.Wait? && c.Tap? == e.Tap?
    ensures c.RelativeTime() == ClampTime(e.RelativeTime())
    ensures c.intensity == e.intensity && c.sharpness == e.sharpness
    ensures e.Continuous? ==> c.duration == e.duration
    ensures e.RelativeTime() >= 0.0 ==> c == e
  {
    match e
    case Tap(i, s, t) => Event.Tap(i, s, ClampTime(t))
    case Continuous(d, i, s, t) => Event.Continuous(d, i, s, ClampTime(t))
  }

  function ClampAll(s: seq<Event>): (r: seq<Event>)
    requires AllTimed(s)
    ensures |r| == |s| && AllTimed(r)
    ensures forall k :: 0 <= k < |s| ==> r[k] == ClampEvent(s[k])
  {
    var r := seq(|s|, k requires 0 <= k < |s| => ClampEvent(s[k]));
    assert forall e :: e in r ==> !e.Wait? by {
      forall e | e in r ensures !e.Wait? { var k :| 0 <= k < |r| && r[k] == e; }
    }
    r
  }

  predicate NonNegativeTimes(s: seq<Event>)
    requires AllTimed(s)
  {
    forall k :: 0 <= k < |s| ==> s[k].RelativeTime() >= 0.0
  }

  /** Clamp every time, then sort by time. */
  function NormalizeEvents(events: seq<Event>): (r: seq<Event>)
    requires AllTimed(events)
    ensures AllTimed(r) && SortedByTime(r) && NonNegativeTimes(r)
    ensures multiset(r) == multiset(ClampAll(events)) && |r| == |events|
    ensures events == [] ==> r == []
  {
    var c := ClampAll(events);
    var r := SortByTime(c);
    assert NonNegativeTimes(r) by {
      forall k | 0 <= k < |r| ensures r[k].RelativeTime() >= 0.0 {
        assert r[k] in multiset(c);
        var j :| 0 <= j < |c| && c[j] == r[k];
      }
    }
    r
  }

  lemma {:induction false} ClampAllNonNegative(s: seq<Event>)
    requires AllTimed(s) && NonNegativeTimes(s)
    ensures ClampAll(s) == s
  {
    var c := ClampAll(s);
    forall k | 0 <= k < |s| ensures c[k] == s[k] {
      assert s[k].RelativeTime() >= 0.0;
    }
  }

  /** A list with non-negative, ascending times is already normalized. */
  lemma NormalizeOfNormalized(s: seq<Event>)
    requires AllTimed(s) && SortedByTime(s) && NonNegativeTimes(s)
    ensures NormalizeEvents(s) == s
  {
    ClampAllNonNegative(s);
    SortOfSorted(s);
  }

  /** A normalized list is processed without reordering or retiming. */
  lemma ProcessNormalized(s: seq<Event>)
    requires AllTimed(s) && SortedByTime(s) && NonNegativeTimes(s)
    ensures Process(s, true) == Ok(Pattern(ToNativeEvents(s), []))
  {
    NormalizeOfNormalized(s);
  }

  /** Normalizing a normalized list changes nothing. */
  lemma NormalizeIdempotent(events: seq<Event>)
    requires AllTimed(events)
    ensures NormalizeEvents(NormalizeEvents(events)) == NormalizeEvents(events)
  {
    NormalizeOfNormalized(NormalizeEvents(events));
  }

  /** Events that end up at the same time keep their input order. */
  lemma NormalizeStable(events: seq<Event>, t: real)
    requires AllTimed(events)
    ensures AtTime(NormalizeEvents(events), t) == AtTime(ClampAll(events), t)
  {
    SortStable(ClampAll(events), t);
  }

  /** A tap becomes a transient effect, a continuous event a sustained one
      that also carries its duration. */
  function ConvertToCHEvent(e: Event): (n: NativeEvent)
    requires !e.Wait?
    ensures n.eventType == (if e.Tap? then HapticTransient else HapticContinuous)
    ensures n.intensity == e.intensity.Raw() && n.sharpness == e.sharpness.Raw()
    ensures n.relativeTime == e.RelativeTime()
    ensures n.duration == (if e.Continuous? then e.duration.Raw() else 0.0)
    ensures 0.0 <= n.intensity <= 1.0 && 0.0 <= n.sharpness <= 1.0 && n.duration >= 0.0
  {
    match e
    case Tap(i, s, t) => NativeEvent(HapticTransient, i.Raw(), s.Raw(), t, 0.0)
    case Continuous(d, i, s, t) => NativeEvent(HapticContinuous, i.Raw(), s.Raw(), t, d.Raw())
  }

  function ToNativeEvents(s: seq<Event>): (r: seq<NativeEvent>)
    requires AllTimed(s)
    ensures |r| == |s|
    ensures forall k :: 0 <= k < |s| ==> r[k] == ConvertToCHEvent(s[k])
  {
    seq(|s|, k requires 0 <= k < |s| => ConvertToCHEvent(s[k]))
  }

  /** Native events of a normalized list are in range and in time order. */
  lemma NativeOfNormalized(s: seq<Event>)
    requires AllTimed(s) && SortedByTime(s) && NonNegativeTimes(s)
    ensures InRange(ToNativeEvents(s)) && Ascending(ToNativeEvents(s))
  {
    var r := ToNativeEvents(s);
    forall e | e in r
      ensures 0.0 <= e.intensity <= 1.0 && 0.0 <= e.sharpness <= 1.0 && e.relativeTime >= 0.0 && e.duration >= 0.0
    {
      var k :| 0 <= k < |r| && r[k] == e;
    }
  }

  /** Normalize, convert, and build the native pattern (no curves). */
  function Process(events: seq<Event>, accepted: bool): (r: Result<Pattern>)
    requires AllTimed(events)
    ensures r.Ok? <==> accepted || events == []
    ensures r.Err? ==> r.error == NativeRejected
    ensures r.Ok? ==> r.value.curves == [] && r.value.events == ToNativeEvents(NormalizeEvents(events))
    ensures r.Ok? ==> |r.value.events| == |events| && InRange(r.value.events) && Ascending(r.value.events)
    ensures events == [] ==> r == Ok(EmptyPattern)
  {
    var normalized := NormalizeEvents(events);
    NativeOfNormalized(normalized);
    MakePattern(ToNativeEvents(normalized), [], accepted)
  }
}
