# Hapticx in Dafny

Hapticx is a Swift library that turns haptic intents (a tap, a buzz, a
success or warning cue, a timed sequence of events) into time-ordered events
for the platform's haptic engine. It plays them through an engine session
that is created lazily, started on demand and recreated after the platform
resets or stops it. The repository is caught in the middle of a refactor, so
several pieces exist in two variants. Each variant is modelled as written,
in its own module:

- **Levels and clamps** (`HapticxUtils`, `HapticxIntensity`, `HapticxSharpness`,
  `HapticxDuration`, and the older `HapticTypes`). Each is a closed set of
  presets with fixed constants, plus a custom case that is clamped.
- **Events and feedback** (`HapticxEvent`, `HapticxFeedback`,
  `ConvertibleFeedback`):
  - An event is a tap or a continuous effect stamped with a time, or a wait.
  - Feedback comes in two shapes. The pattern providers see a buzz with fade
    times plus arbitrary sequences. The converters see a continuous effect
    with a duration preset and a sharpness.
- **Converters** (`FeedbackConverter`, `DefaultConverters.Convert`). These map
  feedback to event lists.
- **Event processors:**
  - The newer `EventProcessor` clamps times, sorts them and maps each event to
    a native event.
  - The older `DefaultConverters` also folds waits into a running time offset.
    It does so in a loop, proved against a reference function.
  - The sort is a stable insertion sort (`EventOrder`).
- **The newer pattern pipeline** (`PatternPipeline`): convert, then process.
- **The sequence builder** (`SequenceBuilder`): a class with an event list and
  a time cursor.
- **The two older direct pattern builders:**
  - `DirectPatterns` never fails and falls back to the empty pattern.
  - `LegacyPattern` throws.
  - Both share the fade control-point computation (`FadeCurve`).
- **The two engine sessions** (`SessionEngine`, and the standalone file's
  `StandaloneEngine`). Each is a class whose methods update `state` and the
  hardware engine handle.

The platform is not modelled:
- Native events, curves and patterns are plain records (`Native`).
- Whether the platform accepts a pattern is a boolean passed in (`accepted`).
  The empty pattern is always accepted, because the source builds it with
  `try!`.
- Whether creating, starting and playing the hardware engine succeed are
  booleans passed in. A hardware engine is named by a fresh number.
- A ghost counter records how often the hardware was started.

All times and levels are `real`: the code only compares, takes `min`/`max` and
adds literals.

## Model

| member | source | states |
|---|---|---|
| HapticxUtils.Clamp | Sources/Hapticx/HapticxUtils.swift:8-10 | the result lies in [0, 1]; it is the input when the input is in [0, 1], 0 below and 1 above |
| HapticxUtils.ClampTime | Sources/Hapticx/HapticxUtils.swift:13-15 | the result is non-negative; it is the input when that is non-negative, otherwise 0 |
| HapticxUtils.ClampIdempotent | Sources/Hapticx/HapticxUtils.swift:9 | clamping twice is clamping once |
| HapticxUtils.ClampTimeIdempotent | Sources/Hapticx/HapticxUtils.swift:14 | clamping a time twice is clamping it once |
| HapticxUtils.ClampTimeMonotone | Sources/Hapticx/HapticxUtils.swift:14 | a <= b implies clampTime(a) <= clampTime(b) |
| HapticxIntensity.Intensity.Raw | Sources/Hapticx/Types/HapticxIntensity.swift:9-16 | every intensity lies in [0, 1]; a custom level is clamped and kept unchanged when already in [0, 1] |
| HapticxIntensity.PresetsOrdered | Sources/Hapticx/Types/HapticxIntensity.swift:11-13 | light 0.3 < medium 0.7 < heavy 1.0 |
| HapticxSharpness.Sharpness.Raw | Sources/Hapticx/Types/HapticxSharpness.swift:9-16 | every sharpness lies in [0, 1]; a custom level is `clamp(v)`, so it is kept unchanged when already in [0, 1] |
| HapticxSharpness.PresetsOrdered | Sources/Hapticx/Types/HapticxSharpness.swift:11-13 | soft 0.2 < medium 0.5 < sharp 0.8 |
| HapticxDuration.Duration.Raw | Sources/Hapticx/Types/HapticxDuration.swift:9-16 | every duration is non-negative; a custom one is `clampTime(v)`, unchanged when non-negative and 0 when negative |
| HapticxDuration.PresetsOrdered | Sources/Hapticx/Types/HapticxDuration.swift:11-13 | short 0.1 < medium 0.3 < long 0.8 |
| HapticxEvent.RelativeTimeRebuilds | Sources/Hapticx/Pattern/HapticxProcessor.swift:36-37 | the sort key `relativeTime` of a tap or a continuous event is the time it was built with: rebuilding the event from its fields and that time gives the same event |
| HapticxEvent.DefaultTimes | Sources/Hapticx/Types/HapticxEvent.swift:6-7 | a tap or continuous event built without a time is at time 0 |
| HapticxFeedback.TapWith | Sources/Hapticx/Types/HapticxFeedback.swift:25 | `tap(i)` keeps the intensity and uses medium sharpness |
| HapticxFeedback.Buzz | Sources/Hapticx/Types/HapticxFeedback.swift:27-32 | `buzz` passes duration, intensity and both fades through unchanged |
| HapticxFeedback.DefaultTap | Sources/Hapticx/Types/HapticxFeedback.swift:24 | plain `tap` is a tap of medium intensity and medium sharpness |
| HapticxFeedback.ShorthandDefaults | Sources/Hapticx/Types/HapticxFeedback.swift:24-31 | plain `tap` is `tap(medium, medium)`; `buzz(d)` is `continuous(d, medium, 0, 0)` |
| FeedbackConverter.Convert | Sources/Hapticx/Pattern/HapticxConverter.swift:15-42 | every cue is non-empty, wait-free, has non-negative times and is already in time order; tap and continuous become one event at time 0 with their parameters |
| FeedbackConverter.SemanticCues | Sources/Hapticx/Pattern/HapticxConverter.swift:23-40 | the exact events of success, error, warning and selection |
| EventOrder.InsertByTime | Sources/Hapticx/Pattern/HapticxProcessor.swift:37 | inserting into a time-sorted list keeps it sorted and adds exactly the one event |
| EventOrder.SortByTime | Sources/Hapticx/Pattern/HapticxProcessor.swift:37 | the result is sorted by time and is a permutation of the input |
| EventOrder.InsertStable | Sources/Hapticx/Pattern/HapticxProcessor.swift:37 | insertion keeps the order of the events at the inserted event's time |
| EventOrder.SortStable | Sources/Hapticx/Pattern/HapticxProcessor.swift:37 | events with equal times keep their input order |
| EventOrder.SortOfSorted | Sources/Hapticx/Types/HapticxSequenceBuilder.swift:33 | sorting a time-sorted list returns it unchanged |
| EventOrder.SortIdempotent | Sources/Hapticx/Pattern/HapticxProcessor.swift:37 | sorting twice is sorting once |
| EventProcessor.ClampEvent | Sources/Hapticx/Pattern/HapticxProcessor.swift:24-34 | the time becomes max(0, t); kind, intensity, sharpness and duration are kept |
| EventProcessor.ClampAll | Sources/Hapticx/Pattern/HapticxProcessor.swift:24-34 | each event of the list is clamped in place; the length is kept |
| EventProcessor.NormalizeEvents | Sources/Hapticx/Pattern/HapticxProcessor.swift:22-38 | the result is sorted, has non-negative times, and is a permutation of the clamped input; empty stays empty |
| EventProcessor.ClampAllNonNegative | Sources/Hapticx/Pattern/HapticxProcessor.swift:26-32 | clamping a list with non-negative times changes nothing |
| EventProcessor.NormalizeOfNormalized | Sources/Hapticx/Pattern/HapticxProcessor.swift:22-38 | a sorted list with non-negative times is already normalized |
| EventProcessor.NormalizeIdempotent | Sources/Hapticx/Pattern/HapticxProcessor.swift:22-38 | normalizing twice is normalizing once |
| EventProcessor.NormalizeStable | Sources/Hapticx/Pattern/HapticxProcessor.swift:37 | events that end up at the same time keep their input order |
| EventProcessor.ConvertToCHEvent | Sources/Hapticx/Pattern/HapticxProcessor.swift:40-63 | a tap becomes a transient, a continuous event a sustained effect carrying `duration.raw`; raw levels and time are kept; levels lie in [0, 1] and the duration is non-negative |
| EventProcessor.ToNativeEvents | Sources/Hapticx/Pattern/HapticxProcessor.swift:18 | one native event per event, position by position |
| EventProcessor.NativeOfNormalized | Sources/Hapticx/Pattern/HapticxProcessor.swift:40-63 | native events of a normalized list are in range and in ascending time order |
| EventProcessor.ProcessNormalized | Sources/Hapticx/Pattern/HapticxProcessor.swift:16-20 | an accepted normalized list is processed without reordering or retiming |
| EventProcessor.Process | Sources/Hapticx/Pattern/HapticxProcessor.swift:16-20 | succeeds exactly when the platform accepts (always for the empty list); the pattern holds the converted normalized events, in range and ascending, one per input event |
| Native.MakePattern | Sources/Hapticx/Pattern/HapticxProcessor.swift:19 | platform pattern construction: succeeds exactly when accepted or empty, and keeps the events and curves |
| PatternPipeline.CreatePatternForFeedback | Sources/Hapticx/Pattern/HapticxPattern.swift:20-23 | equals processing the converted cue; it fails only on rejection, and its events are non-empty, in range and ascending |
| PatternPipeline.CreatePatternForEvents | Sources/Hapticx/Pattern/HapticxPattern.swift:25-27 | equals processing the events |
| PatternPipeline.SuccessPattern | Sources/Hapticx/Pattern/HapticxPattern.swift:21-22 | success gives a medium/sharp transient at 0 and then a heavy/sharp transient at 0.1 |
| PatternPipeline.WarningPattern | Sources/Hapticx/Pattern/HapticxPattern.swift:21-22 | warning gives three medium/sharp transients at 0, 0.1 and 0.2 |
| DefaultConverters.Convert | Sources/Hapticx/HapticxConverters.swift:21-48 | every cue is well formed; tap and continuous become one event at time 0 with their parameters |
| DefaultConverters.ConvertersAgree | Sources/Hapticx/HapticxConverters.swift:21-48 | both converters give the same events for every feedback |
| DefaultConverters.WaitSum | Sources/Hapticx/HapticxConverters.swift:62-67 | the accumulated wait offset is non-negative |
| DefaultConverters.Shift | Sources/Hapticx/HapticxConverters.swift:69-75 | an event moved by an offset has time max(0, t + offset) and keeps its parameters |
| DefaultConverters.Resolved | Sources/Hapticx/HapticxConverters.swift:64-77 | the offset walk emits no wait, one event per non-wait input, all with non-negative times |
| DefaultConverters.HandleTimeOffsets | Sources/Hapticx/HapticxConverters.swift:60-81 | the loop computes the sorted offset walk: sorted, non-negative times, a permutation of the walk, as long as the number of non-wait inputs |
| DefaultConverters.ResolvedAt | Sources/Hapticx/HapticxConverters.swift:64-76 | each non-wait input, at its place in the walk, has time max(0, t + sum of the earlier waits) and keeps its parameters |
| DefaultConverters.TrailingWaits | Sources/Hapticx/HapticxConverters.swift:66-67 | waits after the last event have no effect |
| DefaultConverters.ResolvedWaitFree | Sources/Hapticx/HapticxConverters.swift:64-77 | without waits the offset stays 0 and the walk only clamps |
| DefaultConverters.WaitFreeAgreesWithNormalize | Sources/Hapticx/HapticxConverters.swift:60-81 | on wait-free input the older and newer processors normalize identically |
| DefaultConverters.ToCHEvent | Sources/Hapticx/HapticxConverters.swift:88-114 | a wait is rejected with `invalidPattern`; anything else converts like the newer processor |
| DefaultConverters.ToCHEvents | Sources/Hapticx/HapticxConverters.swift:56 | conversion succeeds exactly for wait-free lists, and then matches the newer processor's |
| DefaultConverters.Process | Sources/Hapticx/HapticxConverters.swift:54-58 | never throws `invalidPattern`; it fails only when the platform rejects a non-empty pattern; the events are in range, ascending, one per non-wait input, and are exactly the native conversions of the resolved events sorted by time |
| SequenceBuilder.HapticxSequenceBuilder.constructor | Sources/Hapticx/Types/HapticxSequenceBuilder.swift:8-11 | a new builder has no events and cursor 0 |
| SequenceBuilder.HapticxSequenceBuilder.Tap | Sources/Hapticx/Types/HapticxSequenceBuilder.swift:14-17 | appends one tap at the cursor; the cursor is unchanged; events stay sorted and before the cursor |
| SequenceBuilder.HapticxSequenceBuilder.Continuous | Sources/Hapticx/Types/HapticxSequenceBuilder.swift:20-23 | appends one continuous event at the cursor; the cursor is unchanged |
| SequenceBuilder.HapticxSequenceBuilder.Wait | Sources/Hapticx/Types/HapticxSequenceBuilder.swift:26-29 | the cursor advances by `duration.raw` and never decreases; events are unchanged |
| SequenceBuilder.HapticxSequenceBuilder.Build | Sources/Hapticx/Types/HapticxSequenceBuilder.swift:32-34 | returns the time-sorted events, which are the events in append order; the builder is unchanged |
| SequenceBuilder.HapticxSequenceBuilder.Success | Sources/Hapticx/Types/HapticxSequenceBuilder.swift:42-46 | appends medium/sharp at c and heavy/sharp at c + 0.1; the cursor ends at c + 0.1 |
| SequenceBuilder.HapticxSequenceBuilder.Error | Sources/Hapticx/Types/HapticxSequenceBuilder.swift:49-51 | appends one short heavy/soft continuous event; the cursor is unchanged |
| SequenceBuilder.HapticxSequenceBuilder.Warning | Sources/Hapticx/Types/HapticxSequenceBuilder.swift:54-60 | appends three medium/sharp taps at c, c + 0.1 and c + 0.2; the cursor ends at c + 0.2 |
| SequenceBuilder.HapticxSequenceBuilder.Selection | Sources/Hapticx/Types/HapticxSequenceBuilder.swift:63-65 | appends one light/medium tap; the cursor is unchanged |
| SequenceBuilder.TapWaitTap | Sources/Hapticx/Types/HapticxSequenceBuilder.swift:14-34 | tap, wait short, tap, build gives two taps at 0 and 0.1 |
| SequenceBuilder.SuccessMatchesConverter | Sources/Hapticx/Types/HapticxSequenceBuilder.swift:42-46 | a fresh builder's success equals the converter's success cue |
| SequenceBuilder.ErrorMatchesConverter | Sources/Hapticx/Types/HapticxSequenceBuilder.swift:49-51 | a fresh builder's error equals the converter's error cue |
| SequenceBuilder.WarningMatchesConverter | Sources/Hapticx/Types/HapticxSequenceBuilder.swift:54-60 | a fresh builder's warning equals the converter's warning cue |
| SequenceBuilder.SelectionMatchesConverter | Sources/Hapticx/Types/HapticxSequenceBuilder.swift:63-65 | a fresh builder's selection equals the converter's selection cue |
| HapticTypes.HapticIntensity.Raw | Sources/Hapticx/HapticTypes.swift:9-16 | every intensity lies in [0, 1]; a custom level is clamped |
| HapticTypes.HapticSharpness.Raw | Sources/Hapticx/HapticTypes.swift:25-32 | every sharpness lies in [0, 1]; a custom level is clamped |
| HapticTypes.TapWith | Sources/Hapticx/HapticTypes.swift:54 | `tap(i)` keeps the intensity and uses medium sharpness |
| HapticTypes.Buzz | Sources/Hapticx/HapticTypes.swift:56-61 | `buzz` passes duration, intensity and both fades through |
| HapticTypes.DefaultTap | Sources/Hapticx/HapticTypes.swift:53 | plain `tap` is a tap of medium intensity and medium sharpness |
| HapticTypes.ShorthandDefaults | Sources/Hapticx/HapticTypes.swift:53-61 | plain `tap` is `tap(medium, medium)`; `buzz(d)` defaults to medium with no fades |
| HapticTypes.LevelsAgree | Sources/Hapticx/HapticTypes.swift:9-32 | the older levels resolve exactly like the newer ones, presets and custom values alike |
| FadeCurve.IntensityCurves | Sources/Hapticx/Hapticx.swift:144-173 | no curve without a fade, otherwise one curve at 0 whose points are: start at 0 (silent when fading in); fade-in end at min(fadeIn, duration); fade-out start max(fadeIn, duration - fadeOut) only when before the end; end (duration, 0) when fading out, or (duration, intensity) when only fading in and the fade-in ends early; 2 to 4 points |
| FadeCurve.FadePointsOrdered | Sources/Hapticx/Hapticx.swift:148-165 | with duration >= 0 and fadeIn >= 0 the control-point times are nondecreasing and within [0, duration] |
| DirectPatterns.OrEmpty | Sources/Hapticx/Hapticx.swift:123-128 | an accepted pattern is returned as built; a rejected one is replaced by the empty pattern, whose construction is always accepted |
| DirectPatterns.CreateTransientPattern | Sources/Hapticx/Hapticx.swift:113-129 | one transient at 0 with the given levels, or the empty pattern when rejected |
| DirectPatterns.CreateContinuousPattern | Sources/Hapticx/Hapticx.swift:131-180 | one sustained effect at 0 with sharpness 0.5 and the given duration, plus the fade curve; the empty pattern when rejected |
| DirectPatterns.CreateSuccessPattern | Sources/Hapticx/Hapticx.swift:182-208 | (0.6, 0.7) at 0 and (0.8, 0.9) at 0.1, in range and ascending; empty when rejected |
| DirectPatterns.CreateErrorPattern | Sources/Hapticx/Hapticx.swift:210-227 | one sustained (0.9, 0.3) effect of 0.3 s; empty when rejected |
| DirectPatterns.CreateWarningPattern | Sources/Hapticx/Hapticx.swift:229-263 | three (0.7, 0.9) transients at 0, 0.1 and 0.2; empty when rejected |
| DirectPatterns.CreateSelectionPattern | Sources/Hapticx/Hapticx.swift:265-281 | one (0.4, 0.6) transient at 0; empty when rejected |
| DirectPatterns.CreatePattern | Sources/Hapticx/Hapticx.swift:89-109 | every feedback kind yields its pattern and never an error; any rejection yields the empty pattern |
| LegacyPattern.CreateCHEvent | Sources/Hapticx/HapticxPattern.swift:50-76 | a wait is refused with `engineNotInitialized`; a tap keeps raw levels and its time; a continuous event gets sharpness 0.5, its time and duration |
| LegacyPattern.CreateCHEventVersusProcessor | Sources/Hapticx/HapticxPattern.swift:62-71 | against the newer processor, taps convert identically and continuous events differ only in sharpness |
| LegacyPattern.CreateCHEvents | Sources/Hapticx/HapticxPattern.swift:41 | succeeds exactly for wait-free lists, converting position by position |
| LegacyPattern.CreatePatternForEvents | Sources/Hapticx/HapticxPattern.swift:40-43 | any wait throws `engineNotInitialized`; otherwise fails only on rejection; events map one to one in input order at their own times |
| LegacyPattern.EventsNotSorted | Sources/Hapticx/HapticxPattern.swift:40-43 | a list out of time order yields native events out of time order |
| LegacyPattern.CreateTransientPattern | Sources/Hapticx/HapticxPattern.swift:78-89 | one transient at 0, or the rejection thrown |
| LegacyPattern.CreateContinuousPattern | Sources/Hapticx/HapticxPattern.swift:91-136 | the same event and fade curve as the direct builder, or the rejection thrown |
| LegacyPattern.CreateSuccessPattern | Sources/Hapticx/HapticxPattern.swift:138-160 | (0.6, 0.7) at 0 and (0.8, 0.9) at 0.1, or the rejection thrown |
| LegacyPattern.CreateErrorPattern | Sources/Hapticx/HapticxPattern.swift:162-175 | one sustained (0.9, 0.3) effect of 0.3 s, or the rejection thrown |
| LegacyPattern.CreateWarningPattern | Sources/Hapticx/HapticxPattern.swift:177-207 | three (0.7, 0.9) transients at 0, 0.1 and 0.2, or the rejection thrown |
| LegacyPattern.CreateSelectionPattern | Sources/Hapticx/HapticxPattern.swift:209-221 | one (0.4, 0.6) transient at 0, or the rejection thrown |
| LegacyPattern.DirectIsLegacyOrEmpty | Sources/Hapticx/HapticxPattern.swift:138-221 | the direct builder's transient and semantic patterns are this provider's with a rejection replaced by the empty pattern, so the constants match exactly |
| LegacyPattern.CreatePattern | Sources/Hapticx/HapticxPattern.swift:15-37 | a sequence behaves exactly like the event-list overload; every other kind fails only on rejection, and the error is propagated |
| SessionEngine.HapticxEngine.constructor | Sources/Hapticx/HapticxEngine.swift:27-35 | stopped, with an unstarted engine only when supported and created |
| SessionEngine.HapticxEngine.CreateEngine | Sources/Hapticx/HapticxEngine.swift:104-114 | a fresh engine when supported and created, otherwise the old one is kept |
| SessionEngine.HapticxEngine.StartIfNeeded | Sources/Hapticx/HapticxEngine.swift:40-65 | unsupported: `deviceNotSupported`, nothing changes; a missing engine is recreated, else `engineNotInitialized`; ready: returns without a hardware start; otherwise one start, ready on success, `startFailed` and still stopped on failure; a new engine number is used up exactly when a missing engine is created |
| SessionEngine.HapticxEngine.Play | Sources/Hapticx/HapticxEngine.swift:68-82 | the start errors propagate; a player failure is `playFailed`; playing does not change the state; the nil guard after a successful start never fires; the hardware is started once exactly when an engine is there and was stopped, and a new engine number is used up exactly when a missing engine is created |
| SessionEngine.HapticxEngine.Stop | Sources/Hapticx/HapticxEngine.swift:85-96 | always stopped with no engine, whatever the hardware stop does; never fails |
| SessionEngine.HapticxEngine.HandleReset | Sources/Hapticx/HapticxEngine.swift:132-136 | stopped, with a fresh unstarted engine, or the old one when creation fails |
| SessionEngine.HapticxEngine.HandleStopped | Sources/Hapticx/HapticxEngine.swift:139-145 | stopped for any reason, with a fresh unstarted engine, or the old one when creation fails |
| SessionEngine.UnsupportedNeverPlays | Sources/Hapticx/HapticxEngine.swift:41-43 | on a device without haptics, play always fails with `deviceNotSupported` |
| SessionEngine.StartTwice | Sources/Hapticx/HapticxEngine.swift:54-56 | after a successful start, a second start succeeds through the ready fast path |
| SessionEngine.PlayAfterStop | Sources/Hapticx/HapticxEngine.swift:46-48 | after a stop, play recreates the engine and succeeds exactly when create, start and play succeed |
| SessionEngine.PlayAfterPlatformStop | Sources/Hapticx/HapticxEngine.swift:139-145 | after the platform stops a playing engine, the recreated engine plays again |
| StandaloneEngine.HapticxEngine.constructor | Sources/HapticxEngine.swift:30-38 | idle, with an unstarted engine only when supported and created |
| StandaloneEngine.HapticxEngine.CreateEngine | Sources/HapticxEngine.swift:108-118 | a fresh engine when supported and created, otherwise the old one is kept |
| StandaloneEngine.HapticxEngine.StartIfNeeded | Sources/HapticxEngine.swift:43-68 | unsupported: `deviceNotSupported`, nothing changes; a missing engine is recreated, else `engineNotInitialized`; running: no hardware start; otherwise one start, running on success, `startFailed` and still idle on failure; a new engine number is used up exactly when a missing engine is created |
| StandaloneEngine.HapticxEngine.Play | Sources/HapticxEngine.swift:71-85 | the start errors propagate; a player failure is `playFailed`; playing does not change the state; the hardware is started once exactly when an engine is there and was idle, and a new engine number is used up exactly when a missing engine is created |
| StandaloneEngine.HapticxEngine.Stop | Sources/HapticxEngine.swift:88-99 | always idle with no engine; cannot fail |
| StandaloneEngine.HapticxEngine.HandleReset | Sources/HapticxEngine.swift:136-140 | idle, with a fresh unstarted engine, or the old one when creation fails |
| StandaloneEngine.HapticxEngine.HandleStopped | Sources/HapticxEngine.swift:143-165 | idle for any reason, with a fresh unstarted engine, or the old one when creation fails |
| StandaloneEngine.UnsupportedNeverPlays | Sources/HapticxEngine.swift:44-46 | on a device without haptics, play always fails with `deviceNotSupported` |
| StandaloneEngine.StartTwice | Sources/HapticxEngine.swift:57-59 | after a successful start, a second start succeeds without starting again |
| StandaloneEngine.PlayAfterStop | Sources/HapticxEngine.swift:49-51 | after a stop, play recreates the engine and succeeds exactly when create, start and play succeed |
| StandaloneEngine.PlayAfterPlatformStop | Sources/HapticxEngine.swift:143-165 | after the platform stops a playing engine, the recreated engine plays again |

## Left out

- **The public entry point** (Sources/Hapticx/Hapticx.swift:6-87) is left
  out. This covers the shared singleton, the static `play`/`tap`/`buzz`/cue
  methods, the lifecycle hooks and `playFeedback`. That code spawns
  fire-and-forget tasks and swallows every error. Only the pattern dispatch
  and the builders behind it are modelled.
- **Concurrency is left out:**
  - Both engines are actors. Each method is modelled as one atomic step, so
    interleavings at `await` points are not captured.
  - The platform's reset and stop callbacks, installed as closures with weak
    references, become ordinary methods called between operations.
- **The platform's haptic APIs are oracles:**
  - Creating an engine, starting it, making a player and starting the player
    are booleans passed in.
  - Constructing a native pattern is a boolean passed in, except that the
    empty pattern is always accepted.
  - The hardware stop's outcome is ignored, as in the source, so
    `SessionEngine.HapticxEngine.Stop` takes it as an unused argument.
- **Logging is left out.** This includes the per-reason logging switch of
  the standalone engine's stop handler. `StoppedReason` is only passed
  through.
- **Floating point is not modelled.** `Float` and `TimeInterval` values are
  `real`, so rounding is not captured.
- **Error causes are not kept.** `startFailed` and `playFailed` carry no
  underlying error here. The error messages are not modelled.
- **The `invalidPattern(reason)` case is added** to the error type, because
  the older processor throws it (Sources/Hapticx/HapticxConverters.swift:112).
  The error enum itself has no such case.
- **Sorting is modelled as a stable insertion sort.** Swift's `sorted` is
  stable in current implementations but does not document it. The lemmas
  about stability, idempotence and the builder's append order rely on this
  choice.
- **The event shape follows the code that uses it,** not the declaration:
  - The declaration of `continuous` (Sources/Hapticx/Types/HapticxEvent.swift:7)
    has no sharpness and a raw duration. The builder, the converters and both
    processors build and match `continuous(duration preset, intensity,
    sharpness, at)` and `wait(preset)`. The one exception is the older pattern
    provider: it matches the declared three-field shape
    `continuous(duration, intensity, at)` and passes that duration to the
    platform as it is (Sources/Hapticx/HapticxPattern.swift:62, 70). The model
    gives that provider the same four-field event, ignores its sharpness, and
    passes `duration.raw`.
  - `relativeTime`, which no file defines, is the `at` of a tap or a
    continuous event and is only read on wait-free lists.
- **The two feedback shapes are kept apart.** The converters switch over a
  feedback whose continuous case has a duration preset and a sharpness, with
  no sequence case. This does not match the declared feedback type.
  `ConvertibleFeedback` models the shape the converters use.
- **EventProcessor.Process requires a wait-free list.** The switch in
  normalization (Sources/Hapticx/Pattern/HapticxProcessor.swift:25-33) has no
  wait case, so the source gives it no behaviour for a wait. For the same
  reason `PatternPipeline.CreatePatternForEvents` requires a wait-free list.
- **SessionEngine.HapticxEngine.CreateEngine requires the stopped state.**
  Every call site in the source (initialisation, a missing engine, and the
  two platform handlers) reaches it stopped. The invariant "ready means the
  current engine was started" depends on this.
  `StandaloneEngine.HapticxEngine.CreateEngine` has the same precondition.
- **The standalone engine file is outside the built target.** The package
  manifest builds `Sources/Hapticx` only (Package.swift:23), and both
  Sources/HapticxEngine.swift and Sources/HapticxError.swift lie outside it.
  The standalone engine is still modelled on its own.
- **Duplicate declarations are not reconciled.** The two pattern-provider
  files each declare `HapticxPattern`, which would not compile together.
  Each file is modelled in its own module (`PatternPipeline`,
  `LegacyPattern`).
