/** Primitive actuator events. A tap and a continuous effect carry their
    own relative time (0 when omitted); a wait carries only a duration and
    advances the time of the events declared after it. */
module HapticxEvent {
  import opened HapticxIntensity
  import opened HapticxSharpness
  import opened HapticxDuration

  datatype Event =
    | Tap(intensity: Intensity, sharpness: Sharpness, at: real := 0.0)
    | Continuous(duration: Duration, intensity: Intensity, sharpness: Sharpness, at: real := 0.0)
    | Wait(duration: Duration)
  {
    /** The time an event is scheduled at; a wait has none. */
    function RelativeTime(): (t: real)
      requires !Wait?
    {
      at
    }
  }

  /** The time of a tap or a continuous effect is the one it was built
      with: rebuilding the event from its levels and that time gives it back. */
  lemma RelativeTimeRebuilds(e: Event)
    requires !e.Wait?
    ensures e.Tap? ==> e == Tap(e.intensity, e.sharpness, e.RelativeTime())
    ensures e.Continuous? ==> e == Continuous(e.duration, e.intensity, e.sharpness, e.RelativeTime())
  {
  }

  /** No wait in the list, so every element has a relative time. */
  predicate AllTimed(s: seq<Event>)
  {
    forall e :: e in s ==> !e.Wait?
  }

  lemma DefaultTimes(i: Intensity, s: Sharpness, d: Duration)
    ensures Tap(i, s).RelativeTime() == 0.0
    ensures Continuous(d, i, s).RelativeTime() == 0.0
    ensures Tap(i, s) == Tap(i, s, 0.0) && Continuous(d, i, s) == Continuous(d, i, s, 0.0)
  {
  }
}
