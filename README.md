# Hangharang kiosk mixer, modelled in Dafny

Hangharang is a React Native kiosk app for a museum. A home screen shows one
scene at a time out of three. Each scene has four sound channels, which a
visitor switches on and off. Each channel has a volume knob. After a minute
with no interaction, the app goes back to its start screen.

This project models the state logic behind that screen and proves properties
of it. Each source file is one module:

- `ChannelLifecycle` (channel_lifecycle.dfy) and `AudioChannelComponent`
  (audio_channel.dfy) model the sound lifecycle of one AudioChannel.
  - Every change of the `isActive` or `channel.file` prop starts a run of
    `manageSound`.
  - A run is suspended at one await at a time. Runs in flight are records,
    and an explicit step resumes one of them.
  - Run `i` is aborted once a later run exists, the unmount cleanup has
    aborted its controller, or the component has unmounted.
  - Audio calls are state updates with an outcome parameter: `ok` means the
    call resolved.
  - The pure machine proves an invariant, once for every reachable state.
    The invariant says:
    - every sound is registered in `soundRef`, or held by a run that will
      release it, or lost to a failed call;
    - the registered sound plays the newest run's file;
    - while mounted, the processing flag is set exactly while the newest run
      is in flight.
  - It also proves three trace properties:
    - after any burst of prop changes, knob turns and completions whose calls
      all succeed, only the newest `isActive` and file choice remains: at
      most one looping sound of the current file, playing exactly when the
      channel is active;
    - the registered sound plays at the volume captured by the run that
      registered it, or at the knob's current volume once a later knob turn
      has reached it;
    - a superseded run unloads everything it touched within three steps.
  - The settled volume can lag behind the knob. A run loads its sound at the
    volume it captured when it started. A knob turn made while that load is
    pending finds `soundRef` empty, so the volume effect skips it. Nothing
    applies the volume again after the sound is registered, so the sound keeps
    playing at the old volume until the knob moves again.
    KnobDuringLoadIsLost exhibits such a trace.
  - The `AudioChannel` class holds the same state in fields. Its methods are
    proved to move that state exactly as the machine does.
- `Home` (session.dfy) models the home screen (`app/index.tsx`):
  - circular scene navigation;
  - the copy-on-write flag flip;
  - the per-`scene-channel` toggle debounce over a timestamp map, including
    the decimal key and a proof that the key is injective;
  - the guarded sleep reset and the start transition;
  - a `HomeScreen` class that owns an auto-sleep timer.
- `AutoSleep` (auto_sleep.dfy): the single-deadline timer of `useAutoSleep`.
- `KnobGesture` (knob.dfy): the clamped drag arithmetic of the volume knob,
  the ≥ 5 emission rule and the guard on external values.
- `Debounce` (debounce.dfy): the trailing debounce and the leading-edge
  throttle of `useDebounce.ts`.
- `SoundHook` (sound_hook.dfy): the guarded load, play, pause, volume and
  unload of `useAudioChannel`.
- `Wrappers` (wrappers.dfy) holds the `Option` type used for nullable refs.

Time is a logical clock that the caller passes in. Callbacks and argument
lists are represented by numeric identities.

When an audio call on a sound throws and the component swallows the error,
nothing releases that sound any more. For example:

- a failed `playAsync` leaves the new sound loaded;
- a failed `stopAsync` while retiring skips the `unloadAsync`.

The model records such a sound with `fault`, and the invariant exempts it.

## Model

| member | source | states |
|---|---|---|
| ChannelLifecycle.Finish | src/components/AudioChannel.tsx:200-204 | the run returns; the processing flag is cleared only when the run is not aborted; nothing else changes |
| ChannelLifecycle.AfterRetire | src/components/AudioChannel.tsx:143-157 | after retirement an active, unaborted run goes on to load; an inactive or aborted run returns, through the `finally` |
| ChannelLifecycle.Start | src/components/AudioChannel.tsx:129-147 | a new run aborts every earlier run, is not aborted itself, captures the props and the volume, sets the processing flag and empties `soundRef`; a registered sound becomes the one it retires; an inactive run with nothing to retire returns at once |
| ChannelLifecycle.Mount | src/components/AudioChannel.tsx:68-91 | the first render: mounted, volume 70, no sound, one run; the invariant holds; processing exactly when active |
| ChannelLifecycle.Rerender | src/components/AudioChannel.tsx:207-208 | a new run starts exactly when `isActive` or the file changed; the invariant is kept |
| ChannelLifecycle.Step | src/components/AudioChannel.tsx:142-204 | resuming a run keeps the run count and the mount state and adds at most one sound; what each await does is StepResumes |
| ChannelLifecycle.StopOld | src/components/AudioChannel.tsx:149-154 | stopAsync on the retired sound; sizes and mount state kept (outcome in StopOldResumes) |
| ChannelLifecycle.UnloadOld | src/components/AudioChannel.tsx:149-157 | unloadAsync on the retired sound; sizes and mount state kept (outcome in UnloadOldResumes) |
| ChannelLifecycle.Load | src/components/AudioChannel.tsx:159-170 | createAsync; at most one new sound (outcome in LoadResumes) |
| ChannelLifecycle.PlayNew | src/components/AudioChannel.tsx:172-181 | playAsync on the new sound; sizes and mount state kept (outcome in PlayNewResumes) |
| ChannelLifecycle.StopOwn | src/components/AudioChannel.tsx:174-177 | stopAsync of an aborted run on its own sound; sizes and mount state kept (outcome in StopOwnResumes) |
| ChannelLifecycle.UnloadOwn | src/components/AudioChannel.tsx:167-177 | unloadAsync of an aborted run on its own sound; sizes and mount state kept (outcome in UnloadOwnResumes) |
| ChannelLifecycle.StopOldResumes | src/components/AudioChannel.tsx:149-157 | a resolved stop marks the sound Stopped and moves on to unload; a throw loses the sound, skips the unload and goes on as after retirement |
| ChannelLifecycle.UnloadOldResumes | src/components/AudioChannel.tsx:151-157 | a resolved unload marks the sound Unloaded; a throw loses it; either way the run continues as after retirement |
| ChannelLifecycle.LoadResumes | src/components/AudioChannel.tsx:159-170 | a load adds one looping sound of the run's file at volume/100; an aborted run goes on to unload it and a current run to play it; a failed load ends the run as failed |
| ChannelLifecycle.PlayNewResumes | src/components/AudioChannel.tsx:172-204 | a resolved play sets the sound Playing; an aborted run goes on to stop it, and a current run registers it in `soundRef` and clears the processing flag; a throw loses the sound and ends the run |
| ChannelLifecycle.StopOwnResumes | src/components/AudioChannel.tsx:174-177 | an aborted run's resolved stop moves on to unload; a throw loses the sound and ends the run |
| ChannelLifecycle.UnloadOwnResumes | src/components/AudioChannel.tsx:167-177 | an aborted run's unload marks its sound Unloaded, or loses it on a throw, and the run ends without touching the processing flag |
| ChannelLifecycle.StepResumes | src/components/AudioChannel.tsx:142-204 | resuming a run does, at each await, what the code does there, and leaves every other run, every other sound, the props and the volume alone |
| ChannelLifecycle.VolumeEffect | src/components/AudioChannel.tsx:211-217 | only the registered sound of an active channel gets volume/100, and only when the call resolves; nothing else changes |
| ChannelLifecycle.ChangeVolume | src/components/AudioChannel.tsx:241-242 | the new volume is stored and reaches the registered sound of an active channel; an unchanged volume changes nothing |
| ChannelLifecycle.Unmount | src/components/AudioChannel.tsx:113-125 | unmounted, every run aborted, `soundRef` emptied; the registered sound is unloaded when the unload resolves and lost otherwise; other sounds untouched |
| ChannelLifecycle.StepOnlyNewestRegisters | src/components/AudioChannel.tsx:172-181 | only the newest, unaborted run writes `soundRef`, after a resolved play, with the sound it just played |
| ChannelLifecycle.StepInactiveNeverLoads | src/components/AudioChannel.tsx:182-195 | a run for an inactive channel never creates a sound |
| ChannelLifecycle.StepNewSound | src/components/AudioChannel.tsx:159-165 | a new sound comes only from a resolved createAsync and is looping, at the run's volume/100, loaded but not playing |
| ChannelLifecycle.StepPlaybackOnlyByPlay | src/components/AudioChannel.tsx:172 | a sound starts playing only through a resolved playAsync on it |
| ChannelLifecycle.StepClearsProcessingOnlyAtEnd | src/components/AudioChannel.tsx:200-204 | the processing flag changes under a step only by being cleared, when an unaborted run returns |
| ChannelLifecycle.StartPreservesValid | src/components/AudioChannel.tsx:129-147 | starting a run keeps the invariant |
| ChannelLifecycle.StepPreservesValid | src/components/AudioChannel.tsx:142-204 | every step of every run keeps the invariant |
| ChannelLifecycle.RetireValid | src/components/AudioChannel.tsx:144-157 | the retirement steps keep the invariant |
| ChannelLifecycle.CreateValid | src/components/AudioChannel.tsx:159-170 | the load step keeps the invariant |
| ChannelLifecycle.PlayValid | src/components/AudioChannel.tsx:172-181 | the play step keeps the invariant, including registration in `soundRef` |
| ChannelLifecycle.DiscardValid | src/components/AudioChannel.tsx:167-178 | an aborted run's discarding steps keep the invariant |
| ChannelLifecycle.OtherRunsOk | src/components/AudioChannel.tsx:142-204 | a step of one run leaves every other run's part of the invariant intact |
| ChannelLifecycle.ChangeVolumePreservesValid | src/components/AudioChannel.tsx:211-217 | a volume change keeps the invariant |
| ChannelLifecycle.UnmountPreservesValid | src/components/AudioChannel.tsx:113-125 | the unmount cleanup keeps the invariant |
| ChannelLifecycle.PressIgnoredWhileProcessing | src/components/AudioChannel.tsx:219-220 | while mounted, a press is forwarded exactly when the newest run has returned |
| ChannelLifecycle.StartSilencesVolumeEffect | src/components/AudioChannel.tsx:211-217 | the volume effect that runs together with a new run finds `soundRef` empty and changes nothing |
| ChannelLifecycle.Apply | src/components/AudioChannel.tsx:113-245 | any render, completion, knob report or unmount keeps the invariant and never shrinks the runs or the sounds |
| ChannelLifecycle.Replay | src/components/AudioChannel.tsx:113-245 | every state reachable by a sequence of events satisfies the invariant |
| ChannelLifecycle.StepKeepsNoFaults | src/components/AudioChannel.tsx:142-204 | a step whose call resolves loses no sound and fails no run |
| ChannelLifecycle.ApplyKeepsNoFaults | src/components/AudioChannel.tsx:113-245 | an event whose calls resolve loses no sound and fails no run |
| ChannelLifecycle.ReplayKeepsNoFaults | src/components/AudioChannel.tsx:113-245 | when every audio call resolves, no sound is ever lost and no run ever fails |
| ChannelLifecycle.SettledChannel | src/components/AudioChannel.tsx:142-204 | once every run has returned without faults, the only unreleased sound is the registered one; it plays the newest run's file; while mounted it is registered exactly when the channel is active, and presses are forwarded |
| ChannelLifecycle.BurstSettles | src/components/AudioChannel.tsx:128-208 | after any interleaving of prop changes, knob turns and resolved completions, once all runs have returned, at most one looping sound of the current file plays, exactly when the channel is active |
| ChannelLifecycle.StepKeepsVolumes | src/components/AudioChannel.tsx:142-204 | a step never changes the volume of an existing sound; a run that goes on to play has just loaded its sound at the volume it captured |
| ChannelLifecycle.VolumesCarried | src/components/AudioChannel.tsx:159-181 | the volume invariant carries over when only one run moves, no existing sound changes volume, and only the newest run registers the sound it played |
| ChannelLifecycle.StepVolumeOk | src/components/AudioChannel.tsx:142-204 | every step keeps the volume invariant: a sound waiting to play has its run's captured volume, and the registered sound has that volume or the knob's |
| ChannelLifecycle.ChangeVolumeVolumeOk | src/components/AudioChannel.tsx:211-217 | a knob turn whose volume call resolves keeps the volume invariant, because the registered sound belongs to an active channel |
| ChannelLifecycle.UnmountVolumeOk | src/components/AudioChannel.tsx:113-125 | the unmount cleanup keeps the volume invariant |
| ChannelLifecycle.ApplyVolumeOk | src/components/AudioChannel.tsx:113-245 | every event other than a failed knob call keeps the volume invariant |
| ChannelLifecycle.ReplayVolumeOk | src/components/AudioChannel.tsx:113-245 | the volume invariant holds after any sequence of events whose knob calls resolve |
| ChannelLifecycle.RegisteredVolume | src/components/AudioChannel.tsx:159-217 | in every reachable state whose knob calls resolve, the registered sound plays at the volume / 100 captured by its run or at the current knob volume / 100 |
| ChannelLifecycle.KnobDuringLoadIsLost | src/components/AudioChannel.tsx:159-217 | a knob turn to 40 during the first load leaves the channel settled and active, with the knob at 40 and the registered sound playing at 0.7 |
| ChannelLifecycle.StepKeepsRunOk | src/components/AudioChannel.tsx:142-204 | a run keeps its own part of the invariant across its own steps |
| ChannelLifecycle.Drive | src/components/AudioChannel.tsx:142-204 | resuming one run repeatedly keeps the run count, its part of the invariant and the mount state |
| ChannelLifecycle.Remaining | src/components/AudioChannel.tsx:157-178 | an aborted run has at most three awaits left, and none exactly when it has returned |
| ChannelLifecycle.AbortedStep | src/components/AudioChannel.tsx:157-178 | a resolved step of an aborted run brings it one await closer to returning; it keeps its sound until it has unloaded it and holds any sound it loads; it leaves `soundRef` and the processing flag alone |
| ChannelLifecycle.DriveDone | src/components/AudioChannel.tsx:200-204 | a returned run does nothing more |
| ChannelLifecycle.DriveReturns | src/components/AudioChannel.tsx:157-178 | an aborted run whose calls resolve returns within its remaining awaits without touching `soundRef` or the processing flag |
| ChannelLifecycle.DriveUnloads | src/components/AudioChannel.tsx:157-178 | such a run unloads the sound it was working on and every sound it loaded |
| ChannelLifecycle.UnloadsOn | src/components/AudioChannel.tsx:157-178 | the inductive step of DriveUnloads: unloads after the first step carry over to the whole drive |
| ChannelLifecycle.SupersededRunReleases | src/components/AudioChannel.tsx:157-178 | a superseded run (or one whose component unmounted) whose calls resolve returns within three steps, leaves `soundRef` and the processing flag alone, and releases every sound it touched |
| AudioChannelComponent.AudioChannel.constructor | src/components/AudioChannel.tsx:68-91 | the object after the first render equals the machine's Mount, and the invariant holds |
| AudioChannelComponent.AudioChannel.ManageSound | src/components/AudioChannel.tsx:129-147 | the synchronous start of manageSound moves the fields as Start |
| AudioChannelComponent.AudioChannel.Rerender | src/components/AudioChannel.tsx:207-208 | a render moves the fields as the machine's Rerender and keeps the invariant |
| AudioChannelComponent.AudioChannel.Resume | src/components/AudioChannel.tsx:142-204 | resuming run `i` moves the fields as Step and keeps the invariant |
| AudioChannelComponent.AudioChannel.OldStopped | src/components/AudioChannel.tsx:149-154 | moves the fields as StopOld |
| AudioChannelComponent.AudioChannel.OldUnloaded | src/components/AudioChannel.tsx:149-157 | moves the fields as UnloadOld |
| AudioChannelComponent.AudioChannel.Created | src/components/AudioChannel.tsx:159-170 | moves the fields as Load |
| AudioChannelComponent.AudioChannel.Played | src/components/AudioChannel.tsx:172-181 | moves the fields as PlayNew |
| AudioChannelComponent.AudioChannel.OwnStopped | src/components/AudioChannel.tsx:174-177 | moves the fields as StopOwn |
| AudioChannelComponent.AudioChannel.OwnUnloaded | src/components/AudioChannel.tsx:167-177 | moves the fields as UnloadOwn |
| AudioChannelComponent.AudioChannel.IsAborted | src/components/AudioChannel.tsx:137-138 | `isAborted()` is true exactly when the run is superseded, its controller aborted or the component unmounted |
| AudioChannelComponent.AudioChannel.ContinueAfterRetire | src/components/AudioChannel.tsx:157 | moves the fields as AfterRetire |
| AudioChannelComponent.AudioChannel.EndRun | src/components/AudioChannel.tsx:200-204 | moves the fields as Finish |
| AudioChannelComponent.AudioChannel.HandleVolumeChange | src/components/AudioChannel.tsx:241-246 | moves the fields as ChangeVolume and keeps the invariant |
| AudioChannelComponent.AudioChannel.Unmount | src/components/AudioChannel.tsx:113-125 | moves the fields as Unmount and keeps the invariant |
| AudioChannelComponent.AudioChannel.HandlePress | src/components/AudioChannel.tsx:219-239 | a press is forwarded exactly when nothing is processing, which, while mounted, is when the newest run has returned |
| AutoSleep.Reset | src/hooks/useAutoSleep.ts:21-31 | a reset leaves one timer, due exactly `timeout` after now |
| AutoSleep.Mount | src/hooks/useAutoSleep.ts:34-36 | the timer is armed on mount, due `timeout` after mounting |
| AutoSleep.Fire | src/hooks/useAutoSleep.ts:28-30 | the callback runs exactly when a timer is pending and due; it is the current `onSleep`; nothing is pending afterwards |
| AutoSleep.Apply | src/hooks/useAutoSleep.ts:13-43 | only the clock reaching a due time invokes a callback, the current one |
| AutoSleep.ResetIsRestart | src/hooks/useAutoSleep.ts:21-31 | the due time after a reset does not depend on what was pending; resetting twice at once equals resetting once |
| AutoSleep.AtMostOnceWithoutReset | src/hooks/useAutoSleep.ts:28-30 | without a reset, the callback runs at most once, and never when nothing was pending; after firing, nothing is pending |
| AutoSleep.NothingAfterTeardown | src/hooks/useAutoSleep.ts:38-42 | after teardown no callback runs and nothing is pending |
| AutoSleep.LatestCallbackFires | src/hooks/useAutoSleep.ts:17-30 | a due timer, after any number of renders, invokes the latest render's `onSleep` exactly once |
| AutoSleep.LatestOfTail | src/hooks/useAutoSleep.ts:18 | the latest render is found the same way from either end of the render sequence |
| AutoSleep.AutoSleepTimer.constructor | src/hooks/useAutoSleep.ts:13-36 | the object after mounting equals Mount |
| AutoSleep.AutoSleepTimer.Rerender | src/hooks/useAutoSleep.ts:18 | a render replaces the callback and nothing else |
| AutoSleep.AutoSleepTimer.ResetTimer | src/hooks/useAutoSleep.ts:21-31 | clear, then arm: the object moves as Reset |
| AutoSleep.AutoSleepTimer.Tick | src/hooks/useAutoSleep.ts:28-30 | the object and the invoked callback are as Fire |
| AutoSleep.AutoSleepTimer.Teardown | src/hooks/useAutoSleep.ts:38-42 | teardown leaves nothing pending and keeps the callback |
| Home.Initial | app/index.tsx:39-46 | not started, scene 0, one row per scene and one flag per channel, all off, no toggle recorded |
| Home.Next | app/index.tsx:89 | the next scene index is in range |
| Home.Prev | app/index.tsx:83 | the previous scene index is in range |
| Home.NavigationSteps | app/index.tsx:83-89 | next is the successor, wrapping from n−1 to 0; prev is the predecessor, wrapping from 0 to n−1 |
| Home.NavigationInverse | app/index.tsx:83-89 | next and prev undo each other |
| Home.ModOfShifted | app/index.tsx:83 | adding the scene count does not change a scene index modulo the scene count |
| Home.Digit | app/index.tsx:95 | a digit is the character `'0'` plus its value |
| Home.NatToString | app/index.tsx:95 | the decimal rendering is non-empty, all digits, and one character long exactly for numbers below 10 |
| Home.NatToStringInjective | app/index.tsx:95 | different numbers render differently |
| Home.KeyInjective | app/index.tsx:95 | different (scene, channel) pairs have different keys |
| Home.SplitAtDash | app/index.tsx:95 | a key splits back into its two numbers at its dash |
| Home.FirstDash | app/index.tsx:95 | the dash after the scene number is the first dash in the key |
| Home.Flip | app/index.tsx:105-111 | the copy flips exactly `[scene][channel]`, keeps every other flag and the shape |
| Home.FlipTwice | app/index.tsx:105-111 | flipping the same flag twice restores the flags |
| Home.SwitchOff | app/index.tsx:66-68 | every flag off, shape kept |
| Home.SwitchOffUnique | app/index.tsx:66-68 | the switched-off flags are the only all-off flags of that shape, so switching off twice equals once |
| Home.Sleep | app/index.tsx:61-71 | before the start, nothing changes; afterwards, every flag is off, the scene is 0 and the app is not started; the shape and the toggle map are kept |
| Home.SleepIdempotent | app/index.tsx:61-71 | sleeping twice equals sleeping once |
| Home.Toggle | app/index.tsx:93-111 | accepted exactly when at least 200 ms have passed since the key's last accepted toggle, a missing key counting as 0; a rejection changes nothing; an acceptance records now under the key and flips that one flag |
| Home.ToggleKeepsOtherKeys | app/index.tsx:95-103 | a toggle never changes whether any other (scene, channel) pair's toggle is accepted |
| Home.ToggleDebounceWindow | app/index.tsx:97-103 | after an accepted toggle, the same channel is rejected for 200 ms and accepted again from then on |
| Home.Start | app/index.tsx:118-122 | the start sets `hasStarted` and changes nothing else |
| Home.HomeScreen.constructor | app/index.tsx:39-46 | the object starts as Initial, and the hook's timer is armed on mount |
| Home.HomeScreen.Render | app/index.tsx:76-79 | a render hands the hook the handleSleep of the current `hasStarted` |
| Home.HomeScreen.HandleSleep | app/index.tsx:61-74 | the object moves as Sleep; the timer's due time is untouched |
| Home.HomeScreen.HandlePrevScene | app/index.tsx:81-85 | the scene becomes its predecessor with wrap-around, nothing else changes, and the timer restarts |
| Home.HomeScreen.HandleNextScene | app/index.tsx:87-91 | the scene becomes its successor with wrap-around, nothing else changes, and the timer restarts |
| Home.HomeScreen.ToggleChannel | app/index.tsx:93-116 | the object moves as Toggle; an accepted toggle restarts the timer, and a rejected one leaves it alone |
| Home.HomeScreen.HandleStart | app/index.tsx:118-122 | the object moves as Start; the timer restarts and holds the started screen's handleSleep |
| Home.HomeScreen.HandleScroll | app/index.tsx:249 | a scroll restarts the timer and changes nothing else |
| Home.HomeScreen.Tick | app/index.tsx:61-79 | a due timer runs the current handleSleep, so the screen moves as Sleep; otherwise nothing changes |
| KnobGesture.Clamp | src/components/Knob.tsx:68-71 | the result lies in [0, 1]; it is the input inside that range and the nearer bound outside it |
| KnobGesture.Round | src/components/Knob.tsx:77-78 | the nearest integer, halves rounding up |
| KnobGesture.NewPosition | src/components/Knob.tsx:64-71 | the dragged position is always in [0, 1] |
| KnobGesture.Emission | src/components/Knob.tsx:77-83 | an update reports round(position·100) exactly when it is at least 5 from round(start·100) |
| KnobGesture.RoundDistance | src/components/Knob.tsx:77-78 | two rounded values differ by less than one unit more or less than the values themselves |
| KnobGesture.EmissionThreshold | src/components/Knob.tsx:77-83 | a move under 4 percent from the start never reports; a move of 6 percent or more always does |
| KnobGesture.DragDirection | src/components/Knob.tsx:64-71 | dragging up never lowers the position below the start; dragging down never raises it above |
| KnobGesture.PercentInRange | src/components/Knob.tsx:89 | the final value is an integer in [0, 100] |
| KnobGesture.PercentRoundTrip | src/components/Knob.tsx:50-54 | a value set from outside reads back unchanged at the end of a drag |
| KnobGesture.ComparesWithStart | src/components/Knob.tsx:77-83 | successive updates compare with the drag's start, not with the last report |
| KnobGesture.Knob.constructor | src/components/Knob.tsx:27-34 | the thumb starts at value/100, not dragging |
| KnobGesture.Knob.ExternalValue | src/components/Knob.tsx:50-54 | a new value moves the thumb to value/100 only when no drag is in progress |
| KnobGesture.Knob.OnStart | src/components/Knob.tsx:57-60 | dragging starts at the thumb's current position |
| KnobGesture.Knob.OnUpdate | src/components/Knob.tsx:62-84 | the thumb moves to NewPosition and the update reports as Emission |
| KnobGesture.Knob.OnEnd | src/components/Knob.tsx:85-91 | dragging ends and round(position·100), within [0, 100], is always reported |
| Debounce.Call | src/hooks/useDebounce.ts:19-27 | a call leaves exactly one invocation pending, with its arguments, due `delay` later |
| Debounce.Fire | src/hooks/useDebounce.ts:24-26 | a due timer invokes the current callback with the captured arguments once and clears the slot; nothing happens otherwise |
| Debounce.CallReplacesPending | src/hooks/useDebounce.ts:20-24 | what a call leaves pending does not depend on what was pending before |
| Debounce.BurstInvokesNothing | src/hooks/useDebounce.ts:19-27 | a burst invokes nothing and leaves only the latest call pending, with the latest callback |
| Debounce.RunSnoc | src/hooks/useDebounce.ts:19-27 | running one more event continues from where the others left off |
| Debounce.BurstDeliversLastCall | src/hooks/useDebounce.ts:17-26 | after a burst, the first due moment delivers only the last call's arguments, once, to the latest callback |
| Debounce.LatestPendingSet | src/hooks/useDebounce.ts:24 | a burst containing a call leaves something pending |
| Debounce.DebouncedFunction.constructor | src/hooks/useDebounce.ts:13-14 | nothing pending, the given callback |
| Debounce.DebouncedFunction.Rerender | src/hooks/useDebounce.ts:17 | a render replaces the callback and nothing else |
| Debounce.DebouncedFunction.Invoke | src/hooks/useDebounce.ts:19-27 | clear, then schedule: the object moves as Call |
| Debounce.DebouncedFunction.Tick | src/hooks/useDebounce.ts:24-26 | the object and the invocation are as Fire |
| Debounce.NewThrottle | src/hooks/useDebounce.ts:40-43 | the last call time starts at 0 |
| Debounce.ThrottledCall | src/hooks/useDebounce.ts:45-52 | a call passes exactly when `delay` has elapsed since the last passing call; a passing call records now and invokes the current callback once; a rejected call changes nothing |
| Debounce.FirstCallPasses | src/hooks/useDebounce.ts:40-48 | the first call passes exactly when now ≥ delay |
| Debounce.ThrottleSpacing | src/hooks/useDebounce.ts:45-52 | over any sequence of calls, passing calls are at least `delay` apart, and the last call time is the last passing call's |
| Debounce.ThrottledFunction.constructor | src/hooks/useDebounce.ts:40-43 | the object starts as NewThrottle |
| Debounce.ThrottledFunction.Rerender | src/hooks/useDebounce.ts:43 | a render replaces the callback and nothing else |
| Debounce.ThrottledFunction.Invoke | src/hooks/useDebounce.ts:45-52 | the object and the invocation are as ThrottledCall |
| SoundHook.Load | src/hooks/useAudioChannel.ts:16-28 | a successful load holds a looping, silent, stopped sound and sets `isLoaded`; a failure changes nothing |
| SoundHook.Unload | src/hooks/useAudioChannel.ts:30-36 | with a sound held, a resolved unload clears both refs; without a sound, or when the unload throws, nothing changes |
| SoundHook.Play | src/hooks/useAudioChannel.ts:46-58 | nothing happens unless a loaded sound is held; the volume is set, then playback starts only if not already playing; the position is never touched; a throw ends the sequence |
| SoundHook.Pause | src/hooks/useAudioChannel.ts:60-69 | nothing happens unless a loaded sound is held; playback stops, then the position rewinds to 0; a failed pause also skips the rewind |
| SoundHook.SetVolume | src/hooks/useAudioChannel.ts:71-79 | only the volume changes, and only when a loaded sound is held and the call resolves |
| SoundHook.OperationsKeepValid | src/hooks/useAudioChannel.ts:16-79 | `isLoaded` always implies a held sound |
| SoundHook.PlayIdempotent | src/hooks/useAudioChannel.ts:50-53 | a second play never restarts a playing sound or moves its position |
| SoundHook.PauseThenPlayRestarts | src/hooks/useAudioChannel.ts:46-69 | after a pause, play starts the sound from the beginning |
| SoundHook.LoadedSoundPlaysFromStart | src/hooks/useAudioChannel.ts:16-58 | a freshly loaded sound stays silent unless `playAsync` resolves; the first play whose calls all resolve starts it looping from position 0 at the requested volume |
| SoundHook.AudioChannelHook.constructor | src/hooks/useAudioChannel.ts:9-14 | the object after the mount effect equals Load from empty refs |
| SoundHook.AudioChannelHook.LoadSound | src/hooks/useAudioChannel.ts:16-28 | the object moves as Load |
| SoundHook.AudioChannelHook.UnloadSound | src/hooks/useAudioChannel.ts:30-36 | the object moves as Unload |
| SoundHook.AudioChannelHook.PlaySound | src/hooks/useAudioChannel.ts:46-58 | the object moves as Play, with volume 0.7 by default |
| SoundHook.AudioChannelHook.PauseSound | src/hooks/useAudioChannel.ts:60-69 | the object moves as Pause |
| SoundHook.AudioChannelHook.SetSoundVolume | src/hooks/useAudioChannel.ts:71-79 | the object moves as SetVolume |

## Left out

- Rendering, layout, animations and haptics are not modelled: AudioChannel.tsx:93-110 and 248 onward, the Knob styles, SceneHeader and the layout file. None of them holds state logic.
- The audio library is not modelled. Each call becomes its effect on a sound record plus an outcome parameter. `Audio.setAudioModeAsync` (app/index.tsx:52-59) and the playback-status logging (useAudioChannel.ts:38-44) are dropped.
- Real time is not modelled. `Date.now` and `setTimeout` become a clock value passed to each operation, and a `Tick` fires due timers.
- Concurrency appears only as interleavings. In-flight runs of `manageSound` are explicit records, and each completion is a separate step chosen by the caller.
- ChannelLifecycle.Unmount: the stop and unload calls that the cleanup fires without waiting are resolved within the unmount step.
- ChannelLifecycle.Step: its own contract gives only sizes and the mount flags. What each await does is stated in StepResumes.
- ChannelLifecycle.StopOld, UnloadOld, Load, PlayNew, StopOwn and UnloadOwn: their own contracts give only sizes and the mount flags. Their effects are stated in the matching `…Resumes` lemmas.
- ChannelLifecycle.SupersededRunReleases, DriveReturns and DriveUnloads cover only runs whose remaining calls all resolve. A failed call is covered by the invariant instead: it loses the sound through `fault`.
- ChannelLifecycle.BurstSettles assumes every audio call resolves. With failures, a sound can be lost, and the invariant records this.
- ChannelLifecycle.BurstSettles says nothing about the settled sound's volume, which can differ from the knob's. RegisteredVolume states it, and it assumes that the knob's volume calls resolve. After a failed volume call, the sound keeps whichever earlier volume last reached it.
- ChannelLifecycle.Press, PressIgnoredWhileProcessing and AudioChannelComponent.AudioChannel.HandlePress: React state updates take effect at once. In the source, `handlePress` and `disabled` read `isProcessing` from the last committed render (AudioChannel.tsx:219-220, 290). So a press in the one-render gap after `setIsProcessing` is judged on the old value. That lag is not modelled.
- The `sound` state of AudioChannel (line 68) is written but never read. It is not modelled.
- `onInteraction` is not modelled. The home screen never passes it to AudioChannel (app/index.tsx:229-235, 259-265), and the Knob never takes it.
- The HomeScreen and AudioChannel objects are not composed. A channel's `isActive` prop is `channelStates[currentScene][index]`, and the press forwarded by HandlePress is ToggleChannel. Each side is modelled on its own.
- Remounting through the `key` props (app/index.tsx:226, 260) is not modelled. A remount is an Unmount followed by a new AudioChannel.
- Localization and persisted language choice (i18n, LanguageContext, LanguageSwitcher) are not modelled.
- Home.HomeScreen.ToggleChannel requires the channel index to lie within the current scene. The only callers are the buttons rendered for that scene's channels (app/index.tsx:224-232, 258-263).
- KnobGesture.Knob requires a size above the 56-point thumb, because the callers pass 70, 90 or 120. It also requires values in [0, 100], which are the values the knob itself reports and the initial 70.
- Knob arithmetic uses exact reals. Floating-point rounding in the position and in `Math.round` is not modelled.
- SoundHook.Play: `getStatusAsync` reports `isLoaded` as true for every held sound. The model never holds a sound it has unloaded.
- SoundHook.Load: a second load while a sound is held replaces it without unloading it, as the source does. The mount effect loads only once.
- SoundHook.Load, Unload, Play and Pause, and SoundHook.AudioChannelHook.constructor: each hook operation is atomic, and the mount-time load completes inside the constructor. The source's load, unload, play and pause each await between their ref reads and writes (useAudioChannel.ts:16-69), and the model does not capture those interleavings. In particular, this case is not modelled: an unmount while `createAsync` is pending finds `sound.current` empty and unloads nothing. The late load then stores a sound that is never unloaded.
- Debounce and AutoSleep identify callbacks and argument lists by numbers. The callbacks' own effects belong to their callers.
