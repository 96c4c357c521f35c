/** The engine session of the standalone engine file, which lies outside the
    library target: the same lifecycle as the target's session, with the
    states named idle and running, synchronous creation and a hardware stop
    that cannot fail. The hardware is not modelled: whether creating,
    starting and playing succeed is passed in, and a hardware engine is
    named by a fresh number. */
module StandaloneEngine {
  import opened HapticxError
  import opened Native

  datatype HapticxEngineState = Idle | Running

  /** Why the platform stopped the engine; it is only logged. */
  datatype StoppedReason =
    | AudioSessionInterrupt
    | ApplicationSuspended
    | IdleTimeout
    | SystemError
    | NotifyOthersNotDucking
    | UnknownReason

  class HapticxEngine {
    var state: HapticxEngineState
    /** The current hardware engine, `None` when not created or released. */
    var engine: Option<nat>
    const isSupported: bool
    /** The number the next hardware engine will get. */
    var nextHandle: nat
    /** How many times a hardware engine has been started. */
    ghost var starts: nat
    /** The hardware engine started last. */
    ghost var started: Option<nat>

    /** Running means the current hardware engine has been started; an
        unsupported device never holds an engine and is never ready; every
        engine held was created earlier. */
    ghost predicate Valid()
      reads this
    {
      && (state == Running ==> engine.Some? && started == engine)
      && (!isSupported ==> engine.None? && state == Idle)
      && (engine.Some? ==> engine.value < nextHandle)
    }

    /** `init`: query support, and create (but not start) an engine when
        the device supports haptics. */
    constructor (supported: bool, createSucceeds: bool)
      ensures Valid() && isSupported == supported
      ensures state == Idle && starts == 0
      ensures engine == (if supported && createSucceeds then Some(0) else None)
    {
      isSupported := supported;
      state := Idle;
      engine := None;
      nextHandle := 0;
      starts := 0;
      started := None;
      new;
      CreateEngine(createSucceeds);
    }

    /** Creates a fresh, unstarted hardware engine; when creation fails the
        previous one (if any) is kept. Only called while stopped. */
    method CreateEngine(createSucceeds: bool)
      requires Valid() && state == Idle
      modifies this
      ensures Valid()
      ensures state == old(state) && starts == old(starts) && started == old(started)
      ensures engine == (if isSupported && createSucceeds then Some(old(nextHandle)) else old(engine))
      ensures nextHandle == old(nextHandle) + (if isSupported && createSucceeds then 1 else 0)
    {
      if !isSupported {
        return;
      }
      if createSucceeds {
        engine := Some(nextHandle);
        nextHandle := nextHandle + 1;
      }
    }

    /** Makes sure a started engine is there: recreates a missing one, and
        starts it unless it is already ready. */
    method StartIfNeeded(createSucceeds: bool, startSucceeds: bool) returns (r: Outcome)
      requires Valid()
      modifies this
      ensures Valid()
      ensures !isSupported ==> r == Fail(DeviceNotSupported) && unchanged(this)
      ensures old(state) == Running ==> r == Pass && unchanged(this)
      ensures engine == (if isSupported && old(engine).None? && createSucceeds then Some(old(nextHandle)) else old(engine))
      ensures r == (if !isSupported then Fail(DeviceNotSupported)
                    else if engine.None? then Fail(EngineNotInitialized)
                    else if old(state) == Idle && !startSucceeds then Fail(StartFailed)
                    else Pass)
      ensures state == (if r.Pass? then Running else old(state))
      ensures r.Pass? ==> engine.Some? && started == engine
      ensures starts == old(starts) + (if isSupported && engine.Some? && old(state) == Idle then 1 else 0)
      ensures nextHandle == old(nextHandle) + (if isSupported && old(engine).None? && createSucceeds then 1 else 0)
    {
      if !isSupported {
        return Fail(DeviceNotSupported);
      }
      if engine.None? {
        CreateEngine(createSucceeds);
      }
      if engine.None? {
        return Fail(EngineNotInitialized);
      }
      if state == Running {
        return Pass;
      }
      starts := starts + 1;
      if startSucceeds {
        started := engine;
        state := Running;
        r := Pass;
      } else {
        r := Fail(StartFailed);
      }
    }

    /** Starts if needed, then plays the pattern on the started engine.
        Playing does not change the state. */
    method Play(pattern: Pattern, createSucceeds: bool, startSucceeds: bool, playSucceeds: bool)
      returns (r: Outcome)
      requires Valid()
      modifies this
      ensures Valid()
      ensures engine == (if isSupported && old(engine).None? && createSucceeds then Some(old(nextHandle)) else old(engine))
      ensures var up := isSupported && engine.Some? && (old(state) == Running || startSucceeds);
              && state == (if up then Running else old(state))
              && r == (if !isSupported then Fail(DeviceNotSupported)
                       else if engine.None? then Fail(EngineNotInitialized)
                       else if !up then Fail(StartFailed)
                       else if !playSucceeds then Fail(PlayFailed)
                       else Pass)
      ensures r.Pass? || r == Fail(PlayFailed) ==> state == Running && started == engine
      ensures starts == old(starts) + (if isSupported && engine.Some? && old(state) == Idle then 1 else 0)
      ensures nextHandle == old(nextHandle) + (if isSupported && old(engine).None? && createSucceeds then 1 else 0)
    {
      r := StartIfNeeded(createSucceeds, startSucceeds);
      if r.Fail? {
        return;
      }
      // A successful start always leaves an engine, so the second guard
      // of `play` never throws.
      assert engine.Some?;
      if !playSucceeds {
        r := Fail(PlayFailed);
      }
    }

    /** Stops and releases the engine; the hardware stop does not throw. */
    method Stop()
      requires Valid()
      modifies this
      ensures Valid()
      ensures state == Idle && engine.None?
      ensures nextHandle == old(nextHandle) && starts == old(starts)
    {
      state := Idle;
      engine := None;
    }

    /** The platform reset the engine: stop and create a fresh one. */
    method HandleReset(createSucceeds: bool)
      requires Valid()
      modifies this
      ensures Valid()
      ensures state == Idle && starts == old(starts)
      ensures engine == (if isSupported && createSucceeds then Some(old(nextHandle)) else old(engine))
      ensures engine != old(engine) ==> engine.value >= old(nextHandle)
    {
      state := Idle;
      CreateEngine(createSucceeds);
    }

    /** The platform stopped the engine, for whatever reason: stop and
        create a fresh one. */
    method HandleStopped(reason: StoppedReason, createSucceeds: bool)
      requires Valid()
      modifies this
      ensures Valid()
      ensures state == Idle && starts == old(starts)
      ensures engine == (if isSupported && createSucceeds then Some(old(nextHandle)) else old(engine))
      ensures engine != old(engine) ==> engine.value >= old(nextHandle)
    {
      state := Idle;
      CreateEngine(createSucceeds);
    }
  }

  /** A device without haptics never plays, whatever the hardware would do. */
  method UnsupportedNeverPlays(pattern: Pattern, createSucceeds: bool, startSucceeds: bool, playSucceeds: bool)
    returns (r: Outcome)
    ensures r == Fail(DeviceNotSupported)
  {
    var e := new HapticxEngine(false, createSucceeds);
    r := e.Play(pattern, createSucceeds, startSucceeds, playSucceeds);
  }

  /** Two starts in a row: the second one is the ready fast path. */
  method StartTwice(createSucceeds: bool, startSucceeds: bool, again: bool)
    returns (first: Outcome, second: Outcome)
    ensures first.Pass? <==> createSucceeds && startSucceeds
    ensures first.Pass? ==> second == Pass
  {
    var e := new HapticxEngine(true, createSucceeds);
    first := e.StartIfNeeded(createSucceeds, startSucceeds);
    second := e.StartIfNeeded(again, again);
  }

  /** After a stop the engine is recreated on the next play, so playing
      again works once the hardware cooperates. */
  method PlayAfterStop(pattern: Pattern, createSucceeds: bool, startSucceeds: bool, playSucceeds: bool)
    returns (r: Outcome)
    ensures r.Pass? <==> createSucceeds && startSucceeds && playSucceeds
  {
    var e := new HapticxEngine(true, true);
    var _ := e.StartIfNeeded(true, true);
    e.Stop();
    r := e.Play(pattern, createSucceeds, startSucceeds, playSucceeds);
  }

  /** Self-healing: after the platform stops a ready engine and a new one
      is created, the next play starts the new engine and succeeds. */
  method PlayAfterPlatformStop(pattern: Pattern, reason: StoppedReason) returns (before: Outcome, after: Outcome)
    ensures before == Pass && after == Pass
  {
    var e := new HapticxEngine(true, true);
    before := e.Play(pattern, true, true, true);
    e.HandleStopped(reason, true);
    after := e.Play(pattern, false, true, true);
  }
}
