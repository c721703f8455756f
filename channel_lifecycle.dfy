/**
 * The per-channel sound lifecycle of the AudioChannel component, as a state
 * machine over explicit steps.
 *
 * Every change of the `isActive` or `channel.file` prop starts a run of
 * `manageSound`. A run is suspended at one await at a time, and its program
 * counter names that await. `Step(c, i, ok)` resumes run `i`: the awaited
 * audio call completes (successfully when `ok`) and the run executes
 * synchronously up to its next await or to its end. Any interleaving of the
 * runs in flight is a sequence of such steps; no threads are involved.
 */
module ChannelLifecycle {
  import opened Wrappers

  /** The volume, in percent, a channel starts with. */
  const INITIAL_VOLUME: int := 70

  /** Playback status of one sound object of the audio subsystem. */
  datatype Status = Loaded | Playing | Stopped | Unloaded

  /**
   * One sound object handed out by the audio subsystem. `run` is the run that
   * created it. `fault` records that an audio call on it failed where the
   * component swallows the error, so that nothing will release it any more.
   */
  datatype Sound = Sound(file: nat, looping: bool, volume: real, status: Status, run: nat, fault: bool)

  /** The await a run is suspended at, with the sound it is working on. */
  datatype Pc =
    | RetireStop(sound: nat)     // retiring the sound taken out of soundRef: await stopAsync()
    | RetireUnload(sound: nat)   // retiring it: await unloadAsync()
    | Create                     // await Audio.Sound.createAsync(...)
    | DiscardUnload(sound: nat)  // aborted after load or after stop: await unloadAsync()
    | Play(sound: nat)           // await playAsync() on the new sound
    | DiscardStop(sound: nat)    // aborted after play: await stopAsync()
    | Done                       // the run has returned
  {
    predicate HasSound() { !Create? && !Done? }

    predicate Holds(j: nat) { HasSound() && sound == j }
  }

  /** One run of manageSound, with the props and the volume it captured when it started. */
  datatype Run = Run(active: bool, file: nat, volume: int, pc: Pc, failed: bool)

  /**
   * One mounted AudioChannel: its props and volume state, the refs `soundRef`
   * and `isMountedRef`, the processing flag, the runs started so far and the
   * sound objects handed out to it. Run `i` owns abort controller `i`; the
   * newest run's controller is the one in `abortControllerRef`, and
   * `currentAborted` says whether unmount has aborted it. The number of runs
   * is the generation counter.
   */
  datatype Channel = Channel(
    isActive: bool,
    file: nat,
    volume: int,
    soundRef: Option<nat>,
    runs: seq<Run>,
    currentAborted: bool,
    isMounted: bool,
    isProcessing: bool,
    sounds: seq<Sound>)

  function Last(c: Channel): Run
    requires |c.runs| > 0
  {
    c.runs[|c.runs| - 1]
  }

  /**
   * `isAborted()` as run `i` evaluates it: its controller has been aborted (by
   * a later run or by unmount) or the component is no longer mounted.
   */
  predicate Aborted(c: Channel, i: nat) {
    i + 1 < |c.runs| || c.currentAborted || !c.isMounted
  }

  // ---------------------------------------------------------------------------
  // The invariant

  /** Every sound was created, looping, by an active run for that run's file. */
  ghost predicate SoundsOk(c: Channel) {
    forall j :: 0 <= j < |c.sounds| ==>
      var s := c.sounds[j];
      s.run < |c.runs| && c.runs[s.run].active && c.runs[s.run].file == s.file && s.looping
  }

  ghost predicate RunOk(c: Channel, i: nat)
    requires i < |c.runs|
  {
    var pc := c.runs[i].pc;
    && (pc.HasSound() ==> pc.sound < |c.sounds|)
    && (pc.Create? ==> c.runs[i].active)
    && (pc.Play? || pc.DiscardStop? || pc.DiscardUnload? ==> c.sounds[pc.sound].run == i)
    && (pc.DiscardStop? || pc.DiscardUnload? ==> Aborted(c, i))
    && (pc.Play? ==> c.sounds[pc.sound].status == Loaded && !c.sounds[pc.sound].fault)
  }

  ghost predicate RunsOk(c: Channel) {
    forall i :: 0 <= i < |c.runs| ==> RunOk(c, i)
  }

  /** No sound is being worked on by two runs. */
  ghost predicate Exclusive(c: Channel) {
    forall i, k :: 0 <= i < k < |c.runs| && c.runs[i].pc.HasSound() && c.runs[k].pc.HasSound() ==>
      c.runs[i].pc.sound != c.runs[k].pc.sound
  }

  /**
   * The registered sound is playing, belongs to the newest run, which has
   * finished, and no run is working on it.
   */
  ghost predicate RefOk(c: Channel) {
    c.soundRef.Some? ==>
      var j := c.soundRef.value;
      && j < |c.sounds| && |c.runs| > 0
      && c.sounds[j].run == |c.runs| - 1
      && c.sounds[j].status == Playing && !c.sounds[j].fault
      && Last(c).pc.Done?
      && forall i :: 0 <= i < |c.runs| ==> !c.runs[i].pc.Holds(j)
  }

  /**
   * Every sound not yet released is registered or held by a run that will
   * release it, unless an audio call on it has failed.
   */
  ghost predicate Accounted(c: Channel) {
    forall j :: 0 <= j < |c.sounds| && c.sounds[j].status != Unloaded && !c.sounds[j].fault ==>
      c.soundRef == Some(j) || exists i :: 0 <= i < |c.runs| && c.runs[i].pc.Holds(j)
  }

  ghost predicate Valid(c: Channel) {
    && SoundsOk(c) && RunsOk(c) && Exclusive(c) && RefOk(c) && Accounted(c)
    && (|c.runs| > 0 ==> c.isActive == Last(c).active && c.file == Last(c).file)
    && (c.currentAborted ==> !c.isMounted)
    && (!c.isProcessing ==> |c.runs| == 0 || Last(c).pc.Done?)
    && (c.isMounted && |c.runs| > 0 && Last(c).pc.Done? ==> !c.isProcessing)
    && (c.isMounted && |c.runs| > 0 && Last(c).pc.Done? && Last(c).active && !Last(c).failed ==>
          c.soundRef.Some?)
  }

  // ---------------------------------------------------------------------------
  // Small updates

  function SetPc(c: Channel, i: nat, pc: Pc): Channel
    requires i < |c.runs|
  {
    c.(runs := c.runs[i := c.runs[i].(pc := pc)])
  }

  function SetStatus(c: Channel, j: nat, status: Status): Channel
    requires j < |c.sounds|
  {
    c.(sounds := c.sounds[j := c.sounds[j].(status := status)])
  }

  function MarkFault(c: Channel, j: nat): Channel
    requires j < |c.sounds|
  {
    c.(sounds := c.sounds[j := c.sounds[j].(fault := true)])
  }

  function MarkFailed(c: Channel, i: nat): Channel
    requires i < |c.runs|
  {
    c.(runs := c.runs[i := c.runs[i].(failed := true)])
  }

  /** The `finally` of a run: the processing flag is cleared only if the run is not aborted. */
  function Finish(c: Channel, i: nat): (r: Channel)
    requires i < |c.runs|
    ensures Untouched(c, r, i, |c.sounds|) && r.sounds == c.sounds && r.soundRef == c.soundRef
    ensures r.runs[i] == c.runs[i].(pc := Done)
    ensures r.isProcessing == (if Aborted(c, i) then c.isProcessing else false)
  {
    SetPc(c, i, Done).(isProcessing := if Aborted(c, i) then c.isProcessing else false)
  }

  /** After retirement the active path checks for abort before loading; the inactive path ends. */
  function AfterRetire(c: Channel, i: nat): (r: Channel)
    requires i < |c.runs|
    ensures Untouched(c, r, i, |c.sounds|) && r.sounds == c.sounds && r.soundRef == c.soundRef
    ensures r.runs[i].failed == c.runs[i].failed
    ensures r.runs[i].pc == (if c.runs[i].active && !Aborted(c, i) then Create else Done)
    ensures r.isProcessing == (if r.runs[i].pc.Done? && !Aborted(c, i) then false else c.isProcessing)
  {
    if c.runs[i].active && !Aborted(c, i) then SetPc(c, i, Create) else Finish(c, i)
  }

  // ---------------------------------------------------------------------------
  // Transitions

  /**
   * The synchronous start of a run of manageSound: it aborts the previous
   * run's controller by installing its own, sets the processing flag and takes
   * a registered sound out of `soundRef` before anything is awaited.
   */
  function Start(c: Channel, active: bool, file: nat): (r: Channel)
    requires Valid(c) && c.isMounted
    ensures |r.runs| == |c.runs| + 1 && r.runs[..|c.runs|] == c.runs
    ensures forall i :: 0 <= i < |c.runs| ==> Aborted(r, i)
    ensures !Aborted(r, |c.runs|) && Last(r).active == active && Last(r).file == file
    ensures Last(r).volume == c.volume
    ensures r.soundRef.None? && r.sounds == c.sounds
    ensures c.soundRef.Some? ==> Last(r).pc == RetireStop(c.soundRef.value)
    ensures c.soundRef.None? && !active ==> Last(r).pc.Done? && !r.isProcessing
    ensures c.soundRef.Some? || active ==> r.isProcessing
  {
    var id := |c.runs|;
    var c1 := c.(isActive := active, file := file, currentAborted := false, isProcessing := true);
    match c.soundRef
    case Some(s) =>
      c1.(soundRef := None, runs := c.runs + [Run(active, file, c.volume, RetireStop(s), false)])
    case None =>
      AfterRetire(c1.(runs := c.runs + [Run(active, file, c.volume, Done, false)]), id)
  }

  /** The state after the first render: mounted, volume 70, and the first run started. */
  function Mount(active: bool, file: nat): (r: Channel)
    ensures Valid(r) && r.isMounted && |r.runs| == 1 && r.sounds == []
    ensures r.volume == INITIAL_VOLUME && r.soundRef.None?
    ensures r.isProcessing <==> active
  {
    var c := Channel(active, file, INITIAL_VOLUME, None, [], false, true, false, []);
    StartPreservesValid(c, active, file);
    Start(c, active, file)
  }

  /**
   * A re-render: the sound effect runs only when `isActive` or `channel.file`
   * changed. (The volume effect that also runs when `isActive` changes is a
   * no-op right after a start, see StartSilencesVolumeEffect.)
   */
  function Rerender(c: Channel, active: bool, file: nat): (r: Channel)
    requires Valid(c) && c.isMounted
    ensures Valid(r)
    ensures active == c.isActive && file == c.file ==> r == c
    ensures active != c.isActive || file != c.file ==> |r.runs| == |c.runs| + 1
  {
    if active == c.isActive && file == c.file then c
    else
      StartPreservesValid(c, active, file);
      Start(c, active, file)
  }


  /**
   * Resumes run `i` at its await, whose audio call succeeded when `ok`, and
   * runs it up to its next await or its end.
   */
  function Step(c: Channel, i: nat, ok: bool): (r: Channel)
    requires i < |c.runs| && RunOk(c, i)
    ensures |r.runs| == |c.runs| && |c.sounds| <= |r.sounds| <= |c.sounds| + 1
    ensures r.isMounted == c.isMounted && r.currentAborted == c.currentAborted
  {
    match c.runs[i].pc
    case Done => c
    case RetireStop(s) => StopOld(c, i, s, ok)
    case RetireUnload(s) => UnloadOld(c, i, s, ok)
    case Create => Load(c, i, ok)
    case Play(s) => PlayNew(c, i, s, ok)
    case DiscardStop(s) => StopOwn(c, i, s, ok)
    case DiscardUnload(s) => UnloadOwn(c, i, s, ok)
  }

  /** The stopAsync on the retired sound; a failure skips its unload. */
  function StopOld(c: Channel, i: nat, s: nat, ok: bool): (r: Channel)
    requires i < |c.runs| && s < |c.sounds| && c.runs[i].pc == RetireStop(s)
    ensures |r.runs| == |c.runs| && |r.sounds| == |c.sounds|
    ensures r.isMounted == c.isMounted && r.currentAborted == c.currentAborted
  {
    if ok then SetPc(SetStatus(c, s, Stopped), i, RetireUnload(s))
    else AfterRetire(MarkFault(c, s), i)
  }

  /** The unloadAsync on the retired sound. */
  function UnloadOld(c: Channel, i: nat, s: nat, ok: bool): (r: Channel)
    requires i < |c.runs| && s < |c.sounds| && c.runs[i].pc == RetireUnload(s)
    ensures |r.runs| == |c.runs| && |r.sounds| == |c.sounds|
    ensures r.isMounted == c.isMounted && r.currentAborted == c.currentAborted
  {
    AfterRetire(if ok then SetStatus(c, s, Unloaded) else MarkFault(c, s), i)
  }

  /** Audio.Sound.createAsync for the run's file, looping, at the run's volume / 100. */
  function Load(c: Channel, i: nat, ok: bool): (r: Channel)
    requires i < |c.runs| && c.runs[i].pc.Create?
    ensures |r.runs| == |c.runs| && |c.sounds| <= |r.sounds| <= |c.sounds| + 1
    ensures r.isMounted == c.isMounted && r.currentAborted == c.currentAborted
  {
    var run := c.runs[i];
    if ok then
      var n := |c.sounds|;
      var c1 := c.(sounds := c.sounds + [Sound(run.file, true, run.volume as real / 100.0, Loaded, i, false)]);
      if Aborted(c, i) then SetPc(c1, i, DiscardUnload(n)) else SetPc(c1, i, Play(n))
    else Finish(MarkFailed(c, i), i)
  }

  /** playAsync on the new sound; a failure propagates to the run's catch. */
  function PlayNew(c: Channel, i: nat, s: nat, ok: bool): (r: Channel)
    requires i < |c.runs| && s < |c.sounds| && c.runs[i].pc == Play(s)
    ensures |r.runs| == |c.runs| && |r.sounds| == |c.sounds|
    ensures r.isMounted == c.isMounted && r.currentAborted == c.currentAborted
  {
    if !ok then Finish(MarkFailed(MarkFault(c, s), i), i)
    else if Aborted(c, i) then SetPc(SetStatus(c, s, Playing), i, DiscardStop(s))
    else Finish(SetStatus(c, s, Playing).(soundRef := Some(s)), i)
  }

  /** The stopAsync of an aborted run on its own sound; a failure propagates. */
  function StopOwn(c: Channel, i: nat, s: nat, ok: bool): (r: Channel)
    requires i < |c.runs| && s < |c.sounds| && Aborted(c, i) && c.runs[i].pc == DiscardStop(s)
    ensures |r.runs| == |c.runs| && |r.sounds| == |c.sounds|
    ensures r.isMounted == c.isMounted && r.currentAborted == c.currentAborted
  {
    if ok then SetPc(SetStatus(c, s, Stopped), i, DiscardUnload(s))
    else Finish(MarkFault(c, s), i)
  }

  /** The unloadAsync of an aborted run on its own sound; the run ends either way. */
  function UnloadOwn(c: Channel, i: nat, s: nat, ok: bool): (r: Channel)
    requires i < |c.runs| && s < |c.sounds| && Aborted(c, i) && c.runs[i].pc == DiscardUnload(s)
    ensures |r.runs| == |c.runs| && |r.sounds| == |c.sounds|
    ensures r.isMounted == c.isMounted && r.currentAborted == c.currentAborted
  {
    Finish(if ok then SetStatus(c, s, Unloaded) else MarkFault(c, s), i)
  }

  /**
   * What a step of run `i` working on sound `s` leaves alone: the props, the
   * volume, the mount and abort state, every other run, every other existing
   * sound, and what run `i` and sound `s` were created with.
   */
  ghost predicate Untouched(c: Channel, r: Channel, i: nat, s: nat)
    requires i < |c.runs|
  {
    && |r.runs| == |c.runs| && |c.sounds| <= |r.sounds|
    && r.isMounted == c.isMounted && r.currentAborted == c.currentAborted
    && r.isActive == c.isActive && r.file == c.file && r.volume == c.volume
    && r.runs == c.runs[i := r.runs[i]]
    && r.runs[i].active == c.runs[i].active && r.runs[i].file == c.runs[i].file
    && r.runs[i].volume == c.runs[i].volume
    && (s < |c.sounds| ==> r.sounds == c.sounds[s := r.sounds[s]])
    && (s >= |c.sounds| ==> r.sounds[..|c.sounds|] == c.sounds)
    && (s < |c.sounds| ==>
          && r.sounds[s].run == c.sounds[s].run && r.sounds[s].file == c.sounds[s].file
          && r.sounds[s].looping == c.sounds[s].looping && r.sounds[s].volume == c.sounds[s].volume)
  }

  /**
   * Retiring the old sound `s`: after stopAsync the run goes on to unloadAsync;
   * once the sound is released (or a call on it failed and the rest of the
   * cleanup was skipped) an active, unaborted run goes on to load, and any
   * other run ends. The sound is still held by the run unless it is unloaded
   * or lost.
   */
  ghost predicate RetireOutcome(c: Channel, r: Channel, i: nat, s: nat)
    requires i < |c.runs| && s < |c.sounds|
  {
    && Untouched(c, r, i, s) && |r.sounds| == |c.sounds|
    && r.soundRef == c.soundRef && r.runs[i].failed == c.runs[i].failed
    && (r.runs[i].pc.HasSound() ==> r.runs[i].pc == RetireUnload(s))
    && (r.sounds[s].status != Unloaded && !r.sounds[s].fault ==> r.runs[i].pc == RetireUnload(s))
    && (r.sounds[s].status != c.sounds[s].status ==> r.sounds[s].status in {Stopped, Unloaded})
    && (r.runs[i].pc.Create? ==> r.runs[i].active && !Aborted(c, i))
    && (r.runs[i].pc.Done? ==> !r.runs[i].active || Aborted(c, i))
    && r.isProcessing == (if r.runs[i].pc.Done? && !Aborted(c, i) then false else c.isProcessing)
  }

  /**
   * The load awaited by run `i`: on success there is one new sound, looping,
   * at the run's volume / 100, which an aborted run goes on to unload and a
   * current run goes on to play; on failure the run ends as failed.
   */
  ghost predicate CreateOutcome(c: Channel, r: Channel, i: nat, ok: bool)
    requires i < |c.runs|
  {
    && Untouched(c, r, i, |c.sounds|) && r.soundRef == c.soundRef
    && (ok ==>
          && |r.sounds| == |c.sounds| + 1
          && r.sounds[|c.sounds|] == Sound(c.runs[i].file, true, c.runs[i].volume as real / 100.0, Loaded, i, false)
          && r.runs[i].failed == c.runs[i].failed && r.isProcessing == c.isProcessing
          && r.runs[i].pc == (if Aborted(c, i) then DiscardUnload(|c.sounds|) else Play(|c.sounds|)))
    && (!ok ==>
          && |r.sounds| == |c.sounds| && r.runs[i].pc.Done? && r.runs[i].failed
          && r.isProcessing == (if Aborted(c, i) then c.isProcessing else false))
  }

  /**
   * The playAsync awaited by run `i` on its sound `s`: on failure the sound is
   * lost and the run ends as failed; on success the sound plays, and an
   * aborted run goes on to stop it while a current run registers it in
   * `soundRef` and ends.
   */
  ghost predicate PlayOutcome(c: Channel, r: Channel, i: nat, s: nat, ok: bool)
    requires i < |c.runs| && s < |c.sounds|
  {
    && Untouched(c, r, i, s) && |r.sounds| == |c.sounds|
    && (!ok ==>
          && r.sounds[s].fault && r.sounds[s].status == c.sounds[s].status
          && r.runs[i].failed && r.runs[i].pc.Done? && r.soundRef == c.soundRef
          && r.isProcessing == (if Aborted(c, i) then c.isProcessing else false))
    && (ok ==> r.sounds[s] == c.sounds[s].(status := Playing) && r.runs[i].failed == c.runs[i].failed)
    && (ok && Aborted(c, i) ==>
          r.runs[i].pc == DiscardStop(s) && r.soundRef == c.soundRef && r.isProcessing == c.isProcessing)
    && (ok && !Aborted(c, i) ==> r.runs[i].pc.Done? && r.soundRef == Some(s) && !r.isProcessing)
  }

  /**
   * An aborted run discarding its own sound `s`: after stopAsync it goes on to
   * unloadAsync, after which (or after a failed call, which loses the sound)
   * it ends. The processing flag is left alone, since the run is aborted.
   */
  ghost predicate DiscardOutcome(c: Channel, r: Channel, i: nat, s: nat)
    requires i < |c.runs| && s < |c.sounds|
  {
    && Untouched(c, r, i, s) && |r.sounds| == |c.sounds|
    && r.soundRef == c.soundRef && r.isProcessing == c.isProcessing
    && r.runs[i].failed == c.runs[i].failed
    && (r.runs[i].pc.HasSound() ==> r.runs[i].pc == DiscardUnload(s))
    && !r.runs[i].pc.Create?
    && (r.sounds[s].status != Unloaded && !r.sounds[s].fault ==> r.runs[i].pc == DiscardUnload(s))
    && (r.sounds[s].status != c.sounds[s].status ==> r.sounds[s].status in {Stopped, Unloaded})
  }

  /** What resuming run `i` does, await by await. */
  ghost predicate Resumed(c: Channel, r: Channel, i: nat, ok: bool)
    requires i < |c.runs| && RunOk(c, i)
  {
    match c.runs[i].pc
    case Done => r == c
    case RetireStop(s) =>
      && RetireOutcome(c, r, i, s) && r.sounds[s].fault == (c.sounds[s].fault || !ok)
      && (ok ==> r.runs[i].pc == RetireUnload(s) && r.sounds[s].status == Stopped)
      && (!ok ==> !r.runs[i].pc.HasSound())
    case RetireUnload(s) =>
      && RetireOutcome(c, r, i, s) && r.sounds[s].fault == (c.sounds[s].fault || !ok)
      && (ok ==> r.sounds[s].status == Unloaded) && !r.runs[i].pc.HasSound()
    case Create => CreateOutcome(c, r, i, ok)
    case Play(s) => PlayOutcome(c, r, i, s, ok)
    case DiscardStop(s) =>
      && DiscardOutcome(c, r, i, s) && r.sounds[s].fault == (c.sounds[s].fault || !ok)
      && (ok ==> r.runs[i].pc == DiscardUnload(s) && r.sounds[s].status == Stopped)
      && (!ok ==> r.runs[i].pc.Done?)
    case DiscardUnload(s) =>
      && DiscardOutcome(c, r, i, s) && r.sounds[s].fault == (c.sounds[s].fault || !ok)
      && (ok ==> r.sounds[s].status == Unloaded) && r.runs[i].pc.Done?
  }

  lemma StopOldResumes(c: Channel, i: nat, s: nat, ok: bool)
    requires i < |c.runs| && RunOk(c, i) && c.runs[i].pc == RetireStop(s)
    ensures Resumed(c, StopOld(c, i, s, ok), i, ok)
  {
  }

  lemma UnloadOldResumes(c: Channel, i: nat, s: nat, ok: bool)
    requires i < |c.runs| && RunOk(c, i) && c.runs[i].pc == RetireUnload(s)
    ensures Resumed(c, UnloadOld(c, i, s, ok), i, ok)
  {
  }

  lemma LoadResumes(c: Channel, i: nat, ok: bool)
    requires i < |c.runs| && RunOk(c, i) && c.runs[i].pc.Create?
    ensures Resumed(c, Load(c, i, ok), i, ok)
  {
  }

  lemma PlayNewResumes(c: Channel, i: nat, s: nat, ok: bool)
    requires i < |c.runs| && RunOk(c, i) && c.runs[i].pc == Play(s)
    ensures Resumed(c, PlayNew(c, i, s, ok), i, ok)
  {
  }

  lemma StopOwnResumes(c: Channel, i: nat, s: nat, ok: bool)
    requires i < |c.runs| && RunOk(c, i) && c.runs[i].pc == DiscardStop(s)
    ensures Resumed(c, StopOwn(c, i, s, ok), i, ok)
  {
  }

  lemma UnloadOwnResumes(c: Channel, i: nat, s: nat, ok: bool)
    requires i < |c.runs| && RunOk(c, i) && c.runs[i].pc == DiscardUnload(s)
    ensures Resumed(c, UnloadOwn(c, i, s, ok), i, ok)
  {
  }

  /** Resuming a run does, at each await, what the component's code does there. */
  lemma StepResumes(c: Channel, i: nat, ok: bool)
    requires i < |c.runs| && RunOk(c, i)
    ensures Resumed(c, Step(c, i, ok), i, ok)
  {
    match c.runs[i].pc
    case Done =>
    case RetireStop(s) => StopOldResumes(c, i, s, ok);
    case RetireUnload(s) => UnloadOldResumes(c, i, s, ok);
    case Create => LoadResumes(c, i, ok);
    case Play(s) => PlayNewResumes(c, i, s, ok);
    case DiscardStop(s) => StopOwnResumes(c, i, s, ok);
    case DiscardUnload(s) => UnloadOwnResumes(c, i, s, ok);
  }

  /**
   * The live-volume effect: when a sound is registered and the channel is
   * active, the registered sound gets volume / 100; a failed call is
   * swallowed, and nothing else changes.
   */
  function VolumeEffect(c: Channel, ok: bool): (r: Channel)
    requires c.soundRef.Some? ==> c.soundRef.value < |c.sounds|
    ensures r == c.(sounds := r.sounds) && |r.sounds| == |c.sounds|
    ensures forall j :: 0 <= j < |c.sounds| ==> r.sounds[j] == c.sounds[j].(volume := r.sounds[j].volume)
    ensures forall j :: 0 <= j < |c.sounds| && r.sounds[j].volume != c.sounds[j].volume ==>
      c.soundRef == Some(j) && c.isActive && ok
    ensures c.soundRef.Some? && c.isActive && ok ==>
      r.sounds[c.soundRef.value].volume == c.volume as real / 100.0
  {
    match c.soundRef
    case Some(s) =>
      if c.isActive && ok then c.(sounds := c.sounds[s := c.sounds[s].(volume := c.volume as real / 100.0)])
      else c
    case None => c
  }

  /** handleVolumeChange: a new volume state re-runs the volume effect. */
  function ChangeVolume(c: Channel, v: int, ok: bool): (r: Channel)
    requires c.soundRef.Some? ==> c.soundRef.value < |c.sounds|
    ensures r == c.(volume := v, sounds := r.sounds) && |r.sounds| == |c.sounds|
    ensures forall j :: 0 <= j < |c.sounds| ==> r.sounds[j] == c.sounds[j].(volume := r.sounds[j].volume)
    ensures v != c.volume && c.soundRef.Some? && c.isActive && ok ==>
      r.sounds[c.soundRef.value].volume == v as real / 100.0
    ensures v == c.volume ==> r == c
  {
    if v == c.volume then c else VolumeEffect(c.(volume := v), ok)
  }

  /**
   * The unmount cleanups: `isMountedRef` becomes false, the current controller
   * is aborted, and a registered sound is taken out of `soundRef` and stopped
   * and unloaded without waiting; each call may fail silently, and a failed
   * unload loses the sound.
   */
  function Unmount(c: Channel, stopOk: bool, unloadOk: bool): (r: Channel)
    requires c.soundRef.Some? ==> c.soundRef.value < |c.sounds|
    ensures !r.isMounted && r.soundRef.None? && r.runs == c.runs && |r.sounds| == |c.sounds|
    ensures forall i :: 0 <= i < |r.runs| ==> Aborted(r, i)
    ensures r.isProcessing == c.isProcessing && r.volume == c.volume
    ensures forall j :: 0 <= j < |c.sounds| && c.soundRef != Some(j) ==> r.sounds[j] == c.sounds[j]
    ensures c.soundRef.Some? ==>
      var j := c.soundRef.value;
      && r.sounds[j].run == c.sounds[j].run && r.sounds[j].file == c.sounds[j].file
      && r.sounds[j].looping == c.sounds[j].looping
      && r.sounds[j].fault == !unloadOk
      && (unloadOk ==> r.sounds[j].status == Unloaded)
  {
    var c1 := c.(isMounted := false, currentAborted := true);
    match c.soundRef
    case None => c1
    case Some(s) =>
      var status := if unloadOk then Unloaded else if stopOk then Stopped else c.sounds[s].status;
      c1.(soundRef := None, sounds := c.sounds[s := c.sounds[s].(status := status, fault := !unloadOk)])
  }

  /** handlePress forwards the press to onToggle only when no run is processing. */
  function Press(c: Channel): bool {
    !c.isProcessing
  }

  // ---------------------------------------------------------------------------
  // What one step does

  /** Only the newest run, unaborted, writes soundRef, and only with the sound it has just played. */
  lemma StepOnlyNewestRegisters(c: Channel, i: nat, ok: bool)
    requires i < |c.runs| && RunOk(c, i)
    ensures var r := Step(c, i, ok);
      r.soundRef != c.soundRef ==>
        && i == |c.runs| - 1 && !Aborted(c, i) && ok
        && c.runs[i].pc.Play? && r.soundRef == Some(c.runs[i].pc.sound)
  {
    StepResumes(c, i, ok);
  }

  /** A run for an inactive channel never loads a sound. */
  lemma StepInactiveNeverLoads(c: Channel, i: nat, ok: bool)
    requires i < |c.runs| && RunOk(c, i) && !c.runs[i].active
    ensures |Step(c, i, ok).sounds| == |c.sounds|
  {
    StepResumes(c, i, ok);
  }

  /** A new sound comes only from a successful load, looping, at the run's volume / 100, not yet playing. */
  lemma StepNewSound(c: Channel, i: nat, ok: bool)
    requires i < |c.runs| && RunOk(c, i)
    ensures var r := Step(c, i, ok);
      |r.sounds| > |c.sounds| ==>
        && c.runs[i].pc.Create? && ok
        && r.sounds[|c.sounds|] == Sound(c.runs[i].file, true, c.runs[i].volume as real / 100.0, Loaded, i, false)
  {
    StepResumes(c, i, ok);
  }

  /** Only a successful playAsync starts playback. */
  lemma StepPlaybackOnlyByPlay(c: Channel, i: nat, ok: bool)
    requires i < |c.runs| && RunOk(c, i)
    ensures var r := Step(c, i, ok);
      forall j :: 0 <= j < |c.sounds| && c.sounds[j].status != Playing && r.sounds[j].status == Playing ==>
        c.runs[i].pc == Play(j) && ok
  {
    StepResumes(c, i, ok);
  }

  /** The processing flag is cleared only by an unaborted run that ends. */
  lemma StepClearsProcessingOnlyAtEnd(c: Channel, i: nat, ok: bool)
    requires i < |c.runs| && RunOk(c, i)
    ensures var r := Step(c, i, ok);
      r.isProcessing != c.isProcessing ==> !r.isProcessing && r.runs[i].pc.Done? && !Aborted(c, i)
  {
    StepResumes(c, i, ok);
  }

  // ---------------------------------------------------------------------------
  // The invariant is preserved

  lemma StartPreservesValid(c: Channel, active: bool, file: nat)
    requires Valid(c) && c.isMounted
    ensures Valid(Start(c, active, file))
  {
    var r := Start(c, active, file);
    forall i | 0 <= i < |r.runs|
      ensures RunOk(r, i)
    {
      if i < |c.runs| {
        assert RunOk(c, i) && r.runs[i] == c.runs[i];
      }
    }
  }

  lemma StepPreservesValid(c: Channel, i: nat, ok: bool)
    requires Valid(c) && i < |c.runs|
    ensures Valid(Step(c, i, ok))
  {
    assert RunOk(c, i);
    StepResumes(c, i, ok);
    match c.runs[i].pc
    case Done =>
    case RetireStop(s) => RetireValid(c, Step(c, i, ok), i, s);
    case RetireUnload(s) => RetireValid(c, Step(c, i, ok), i, s);
    case Create => CreateValid(c, Step(c, i, ok), i, ok);
    case Play(s) => PlayValid(c, Step(c, i, ok), i, s, ok);
    case DiscardStop(s) => DiscardValid(c, Step(c, i, ok), i, s);
    case DiscardUnload(s) => DiscardValid(c, Step(c, i, ok), i, s);
  }

  /** Runs other than `i` keep their invariant when only run `i` and sound `s` change. */
  lemma OtherRunsOk(c: Channel, r: Channel, i: nat, s: nat)
    requires Valid(c) && i < |c.runs| && c.runs[i].pc.Holds(s)
    requires Untouched(c, r, i, s) && |r.sounds| == |c.sounds|
    ensures forall k :: 0 <= k < |r.runs| && k != i ==> RunOk(r, k)
  {
    forall k | 0 <= k < |r.runs| && k != i
      ensures RunOk(r, k)
    {
      assert RunOk(c, k);
      if c.runs[k].pc.HasSound() {
        if k < i {
          assert c.runs[k].pc.sound != c.runs[i].pc.sound;
        } else {
          assert c.runs[i].pc.sound != c.runs[k].pc.sound;
        }
      }
    }
  }

  /** The invariant after run `i` made progress retiring sound `s`. */
  lemma RetireValid(c: Channel, r: Channel, i: nat, s: nat)
    requires Valid(c) && i < |c.runs| && s < |c.sounds|
    requires c.runs[i].pc == RetireStop(s) || c.runs[i].pc == RetireUnload(s)
    requires RetireOutcome(c, r, i, s)
    ensures Valid(r)
  {
    assert c.soundRef.Some? ==> c.soundRef.value != s && i != |c.runs| - 1;
    OtherRunsOk(c, r, i, s);
    assert RunOk(r, i);
    forall j | 0 <= j < |r.sounds| && r.sounds[j].status != Unloaded && !r.sounds[j].fault
      ensures r.soundRef == Some(j) || exists k :: 0 <= k < |r.runs| && r.runs[k].pc.Holds(j)
    {
      if j == s {
        assert r.runs[i].pc.Holds(j);
      } else if r.soundRef != Some(j) {
        var k :| 0 <= k < |c.runs| && c.runs[k].pc.Holds(j);
        assert k != i && r.runs[k].pc.Holds(j);
      }
    }
  }

  /** The invariant after the load awaited by run `i` completed or failed. */
  lemma CreateValid(c: Channel, r: Channel, i: nat, ok: bool)
    requires Valid(c) && i < |c.runs| && c.runs[i].pc.Create?
    requires CreateOutcome(c, r, i, ok)
    ensures Valid(r)
  {
    assert RunOk(c, i);
    assert c.soundRef.Some? ==> i != |c.runs| - 1;
    forall k | 0 <= k < |r.runs|
      ensures RunOk(r, k)
    {
      if k != i {
        assert RunOk(c, k);
      }
    }
    forall j | 0 <= j < |r.sounds| && r.sounds[j].status != Unloaded && !r.sounds[j].fault
      ensures r.soundRef == Some(j) || exists k :: 0 <= k < |r.runs| && r.runs[k].pc.Holds(j)
    {
      if j == |c.sounds| {
        assert r.runs[i].pc.Holds(j);
      } else if r.soundRef != Some(j) {
        var k :| 0 <= k < |c.runs| && c.runs[k].pc.Holds(j);
        assert k != i && r.runs[k].pc.Holds(j);
      }
    }
    forall k, m | 0 <= k < m < |r.runs| && r.runs[k].pc.HasSound() && r.runs[m].pc.HasSound()
      ensures r.runs[k].pc.sound != r.runs[m].pc.sound
    {
      if k == i { assert RunOk(c, m); } else if m == i { assert RunOk(c, k); }
    }
  }

  /** The invariant after aborted run `i` made progress discarding its own sound `s`. */
  lemma DiscardValid(c: Channel, r: Channel, i: nat, s: nat)
    requires Valid(c) && i < |c.runs| && s < |c.sounds|
    requires c.runs[i].pc == DiscardStop(s) || c.runs[i].pc == DiscardUnload(s)
    requires DiscardOutcome(c, r, i, s)
    ensures Valid(r)
  {
    assert RunOk(c, i);
    assert c.soundRef.Some? ==> c.soundRef.value != s && i != |c.runs| - 1;
    OtherRunsOk(c, r, i, s);
    assert RunOk(r, i);
    forall j | 0 <= j < |r.sounds| && r.sounds[j].status != Unloaded && !r.sounds[j].fault
      ensures r.soundRef == Some(j) || exists k :: 0 <= k < |r.runs| && r.runs[k].pc.Holds(j)
    {
      if j == s {
        assert r.runs[i].pc.Holds(j);
      } else if r.soundRef != Some(j) {
        var k :| 0 <= k < |c.runs| && c.runs[k].pc.Holds(j);
        assert k != i && r.runs[k].pc.Holds(j);
      }
    }
  }

  /** The invariant after the playAsync awaited by run `i` on its sound `s` completed or failed. */
  lemma PlayValid(c: Channel, r: Channel, i: nat, s: nat, ok: bool)
    requires Valid(c) && i < |c.runs| && s < |c.sounds| && c.runs[i].pc == Play(s)
    requires PlayOutcome(c, r, i, s, ok)
    ensures Valid(r)
  {
    assert RunOk(c, i);
    assert c.soundRef.Some? ==> c.soundRef.value != s && i != |c.runs| - 1;
    OtherRunsOk(c, r, i, s);
    assert RunOk(r, i);
    forall j | 0 <= j < |r.sounds| && r.sounds[j].status != Unloaded && !r.sounds[j].fault
      ensures r.soundRef == Some(j) || exists k :: 0 <= k < |r.runs| && r.runs[k].pc.Holds(j)
    {
      if j == s {
        if ok && Aborted(c, i) { assert r.runs[i].pc.Holds(j); }
      } else if r.soundRef != Some(j) {
        var k :| 0 <= k < |c.runs| && c.runs[k].pc.Holds(j);
        assert k != i && r.runs[k].pc.Holds(j);
      }
    }
    if ok && !Aborted(c, i) {
      forall k | 0 <= k < |r.runs|
        ensures !r.runs[k].pc.Holds(s)
      {
        if k != i && c.runs[k].pc.HasSound() {
          assert c.runs[k].pc.sound != c.runs[i].pc.sound;
        }
      }
    }
  }

  lemma ChangeVolumePreservesValid(c: Channel, v: int, ok: bool)
    requires Valid(c)
    ensures Valid(ChangeVolume(c, v, ok))
  {
    var r := ChangeVolume(c, v, ok);
    forall i | 0 <= i < |r.runs|
      ensures RunOk(r, i)
    {
      assert RunOk(c, i);
    }
  }

  lemma UnmountPreservesValid(c: Channel, stopOk: bool, unloadOk: bool)
    requires Valid(c) && c.isMounted
    ensures Valid(Unmount(c, stopOk, unloadOk))
  {
    var r := Unmount(c, stopOk, unloadOk);
    forall i | 0 <= i < |r.runs|
      ensures RunOk(r, i)
    {
      assert RunOk(c, i);
    }
    forall j | 0 <= j < |r.sounds| && r.sounds[j].status != Unloaded && !r.sounds[j].fault
      ensures exists k :: 0 <= k < |r.runs| && r.runs[k].pc.Holds(j)
    {
      var k :| 0 <= k < |c.runs| && c.runs[k].pc.Holds(j);
      assert r.runs[k].pc.Holds(j);
    }
  }

  // ---------------------------------------------------------------------------
  // Queries

  /** With the component mounted, a press is forwarded exactly when the newest run has ended. */
  lemma PressIgnoredWhileProcessing(c: Channel)
    requires Valid(c) && c.isMounted && |c.runs| > 0
    ensures Press(c) <==> Last(c).pc.Done?
  {
  }

  /**
   * The volume effect that runs together with a new run (both depend on
   * `isActive`) finds `soundRef` already emptied, so it changes nothing.
   */
  lemma StartSilencesVolumeEffect(c: Channel, active: bool, file: nat, ok: bool)
    requires Valid(c) && c.isMounted
    ensures VolumeEffect(Start(c, active, file), ok) == Start(c, active, file)
  {
  }

  // ---------------------------------------------------------------------------
  // Traces

  /** Something that happens to a mounted channel. */
  datatype Event =
    | Props(active: bool, file: nat)        // a render with these props
    | Resume(run: nat, ok: bool)            // the audio call awaited by a run completes
    | Knob(volume: int, ok: bool)           // the knob reports a new volume
    | Teardown(stopOk: bool, unloadOk: bool) // the component unmounts

  function Apply(c: Channel, e: Event): (r: Channel)
    requires Valid(c)
    ensures Valid(r)
    ensures |c.runs| <= |r.runs| && |c.sounds| <= |r.sounds|
  {
    match e
    case Props(active, file) =>
      if c.isMounted then Rerender(c, active, file) else c
    case Resume(i, ok) =>
      if i < |c.runs| then
        StepPreservesValid(c, i, ok);
        Step(c, i, ok)
      else c
    case Knob(v, ok) =>
      if c.isMounted then
        ChangeVolumePreservesValid(c, v, ok);
        ChangeVolume(c, v, ok)
      else c
    case Teardown(stopOk, unloadOk) =>
      if c.isMounted then
        UnmountPreservesValid(c, stopOk, unloadOk);
        Unmount(c, stopOk, unloadOk)
      else c
  }

  /** The channel after a sequence of events, in order; every reachable state satisfies the invariant. */
  function Replay(c: Channel, es: seq<Event>): (r: Channel)
    requires Valid(c)
    ensures Valid(r)
    ensures |c.runs| <= |r.runs| && |c.sounds| <= |r.sounds|
    decreases |es|
  {
    if es == [] then c else Replay(Apply(c, es[0]), es[1..])
  }

  /** An event whose audio calls all succeed. */
  predicate EventOk(e: Event) {
    match e
    case Resume(_, ok) => ok
    case Teardown(_, unloadOk) => unloadOk
    case _ => true
  }

  predicate AllOk(es: seq<Event>) {
    forall k :: 0 <= k < |es| ==> EventOk(es[k])
  }

  /** No sound has been lost and no run has failed. */
  predicate NoFaults(c: Channel) {
    && (forall j :: 0 <= j < |c.sounds| ==> !c.sounds[j].fault)
    && (forall i :: 0 <= i < |c.runs| ==> !c.runs[i].failed)
  }

  /** Every run has returned. */
  predicate Settled(c: Channel) {
    forall i :: 0 <= i < |c.runs| ==> c.runs[i].pc.Done?
  }

  lemma StepKeepsNoFaults(c: Channel, i: nat)
    requires i < |c.runs| && RunOk(c, i) && NoFaults(c)
    ensures NoFaults(Step(c, i, true))
  {
    StepResumes(c, i, true);
    var r := Step(c, i, true);
    match c.runs[i].pc
    case Done =>
    case RetireStop(s) =>
      assert r.sounds == c.sounds[s := r.sounds[s]] && r.runs == c.runs[i := r.runs[i]];
    case RetireUnload(s) =>
      assert r.sounds == c.sounds[s := r.sounds[s]] && r.runs == c.runs[i := r.runs[i]];
    case Create =>
      assert r.sounds[..|c.sounds|] == c.sounds && r.runs == c.runs[i := r.runs[i]];
      forall j | 0 <= j < |r.sounds|
        ensures !r.sounds[j].fault
      {
        if j < |c.sounds| { assert r.sounds[j] == r.sounds[..|c.sounds|][j]; }
      }
    case Play(s) =>
      assert r.sounds == c.sounds[s := r.sounds[s]] && r.runs == c.runs[i := r.runs[i]];
    case DiscardStop(s) =>
      assert r.sounds == c.sounds[s := r.sounds[s]] && r.runs == c.runs[i := r.runs[i]];
    case DiscardUnload(s) =>
      assert r.sounds == c.sounds[s := r.sounds[s]] && r.runs == c.runs[i := r.runs[i]];
  }

  lemma ApplyKeepsNoFaults(c: Channel, e: Event)
    requires Valid(c) && NoFaults(c) && EventOk(e)
    ensures NoFaults(Apply(c, e))
  {
    match e
    case Props(active, file) =>
    case Resume(i, ok) =>
      if i < |c.runs| {
        assert RunOk(c, i);
        StepKeepsNoFaults(c, i);
      }
    case Knob(v, ok) =>
    case Teardown(stopOk, unloadOk) =>
  }

  /** When every audio call succeeds, no sound is ever lost and no run ever fails. */
  lemma {:induction false} ReplayKeepsNoFaults(c: Channel, es: seq<Event>)
    requires Valid(c) && NoFaults(c) && AllOk(es)
    ensures NoFaults(Replay(c, es))
    decreases |es|
  {
    if es != [] {
      ApplyKeepsNoFaults(c, es[0]);
      assert AllOk(es[1..]) by {
        forall k | 0 <= k < |es[1..]| ensures EventOk(es[1..][k]) { assert es[1..][k] == es[k + 1]; }
      }
      ReplayKeepsNoFaults(Apply(c, es[0]), es[1..]);
    }
  }

  /**
   * Once every run has returned and no call has failed, the channel holds at
   * most one live sound: the registered one, playing the newest run's file,
   * and, while mounted, it is registered exactly when the channel is active
   * and no press is being ignored.
   */
  lemma SettledChannel(c: Channel)
    requires Valid(c) && Settled(c) && NoFaults(c)
    ensures forall j :: 0 <= j < |c.sounds| && c.sounds[j].status != Unloaded ==> c.soundRef == Some(j)
    ensures c.soundRef.Some? ==>
      && |c.runs| > 0 && Last(c).active
      && c.sounds[c.soundRef.value].file == Last(c).file && c.sounds[c.soundRef.value].status == Playing
    ensures c.isMounted && |c.runs| > 0 ==> (c.soundRef.Some? <==> c.isActive) && Press(c)
  {
    if c.soundRef.Some? {
      var j := c.soundRef.value;
      assert c.sounds[j].run == |c.runs| - 1;
    }
  }

  /**
   * However a burst of prop changes, knob turns and completions interleaves,
   * if every audio call succeeds then once all runs have returned only the
   * newest run's choice remains: one looping sound of the current file
   * playing when the channel is active, none otherwise.
   */
  lemma BurstSettles(active: bool, file: nat, es: seq<Event>)
    requires AllOk(es) && Settled(Replay(Mount(active, file), es))
    ensures var c := Replay(Mount(active, file), es);
      && (forall j :: 0 <= j < |c.sounds| && c.sounds[j].status != Unloaded ==> c.soundRef == Some(j))
      && (c.soundRef.Some? ==>
            var s := c.sounds[c.soundRef.value];
            s.file == c.file && s.looping && s.status == Playing && c.isActive)
      && (c.isMounted ==> (c.soundRef.Some? <==> c.isActive) && Press(c))
  {
    var c0 := Mount(active, file);
    ReplayKeepsNoFaults(c0, es);
    SettledChannel(Replay(c0, es));
  }

  // ---------------------------------------------------------------------------
  // The volume of the registered sound

  /** An event that is not a knob turn whose volume call fails. */
  predicate KnobOk(e: Event) {
    e.Knob? ==> e.ok
  }

  predicate KnobsOk(es: seq<Event>) {
    forall k :: 0 <= k < |es| ==> KnobOk(es[k])
  }

  /**
   * A sound waiting to be played still has the volume its run captured, and
   * the registered sound has either that volume or the current knob volume.
   */
  ghost predicate VolumeOk(c: Channel) {
    && (c.soundRef.Some? && c.soundRef.value < |c.sounds| && |c.runs| > 0 ==>
          var v := c.sounds[c.soundRef.value].volume;
          v == Last(c).volume as real / 100.0 || v == c.volume as real / 100.0)
    && (forall i :: 0 <= i < |c.runs| && c.runs[i].pc.Play? && c.runs[i].pc.sound < |c.sounds| ==>
          c.sounds[c.runs[i].pc.sound].volume == c.runs[i].volume as real / 100.0)
  }

  /**
   * A step keeps the volume of every existing sound, and a run that goes on
   * to play has just loaded its sound at the volume it captured.
   */
  lemma StepKeepsVolumes(c: Channel, i: nat, ok: bool)
    requires i < |c.runs| && RunOk(c, i)
    ensures var r := Step(c, i, ok);
      && |c.sounds| <= |r.sounds| && r.volume == c.volume
      && r.runs == c.runs[i := r.runs[i]] && r.runs[i].volume == c.runs[i].volume
      && (forall j :: 0 <= j < |c.sounds| ==> r.sounds[j].volume == c.sounds[j].volume)
      && (r.runs[i].pc.Play? ==>
            r.runs[i].pc.sound < |r.sounds|
            && r.sounds[r.runs[i].pc.sound].volume == c.runs[i].volume as real / 100.0)
  {
    StepResumes(c, i, ok);
    var r := Step(c, i, ok);
    var n := |c.sounds|;
    if c.runs[i].pc.Create? {
      forall j | 0 <= j < n ensures r.sounds[j].volume == c.sounds[j].volume {
        assert r.sounds[j] == r.sounds[..n][j];
      }
    }
  }

  lemma StepVolumeOk(c: Channel, i: nat, ok: bool)
    requires RunsOk(c) && (c.soundRef.Some? ==> c.soundRef.value < |c.sounds|)
    requires VolumeOk(c) && i < |c.runs|
    ensures VolumeOk(Step(c, i, ok))
  {
    assert RunOk(c, i);
    StepKeepsVolumes(c, i, ok);
    StepOnlyNewestRegisters(c, i, ok);
    VolumesCarried(c, Step(c, i, ok), i);
  }

  /** VolumeOk carries over to a state in which only run `i` moved and no existing sound changed volume. */
  lemma VolumesCarried(c: Channel, r: Channel, i: nat)
    requires RunsOk(c) && (c.soundRef.Some? ==> c.soundRef.value < |c.sounds|)
    requires VolumeOk(c) && i < |c.runs|
    requires |c.sounds| <= |r.sounds| && r.volume == c.volume
    requires |r.runs| == |c.runs| && r.runs == c.runs[i := r.runs[i]] && r.runs[i].volume == c.runs[i].volume
    requires forall j :: 0 <= j < |c.sounds| ==> r.sounds[j].volume == c.sounds[j].volume
    requires r.runs[i].pc.Play? ==>
      r.runs[i].pc.sound < |r.sounds| && r.sounds[r.runs[i].pc.sound].volume == c.runs[i].volume as real / 100.0
    requires r.soundRef != c.soundRef ==>
      i == |c.runs| - 1 && c.runs[i].pc.Play? && r.soundRef == Some(c.runs[i].pc.sound)
    ensures VolumeOk(r)
  {
    assert Last(r).volume == Last(c).volume;
    if r.soundRef != c.soundRef {
      assert RunOk(c, i);
    }
    forall k | 0 <= k < |r.runs| && r.runs[k].pc.Play? && r.runs[k].pc.sound < |r.sounds|
      ensures r.sounds[r.runs[k].pc.sound].volume == r.runs[k].volume as real / 100.0
    {
      if k != i {
        assert r.runs[k] == c.runs[k] && RunOk(c, k);
      }
    }
  }

  lemma ChangeVolumeVolumeOk(c: Channel, v: int)
    requires Valid(c) && VolumeOk(c)
    ensures VolumeOk(ChangeVolume(c, v, true))
  {
    if c.soundRef.Some? {
      assert c.sounds[c.soundRef.value].run == |c.runs| - 1;
    }
  }

  lemma UnmountVolumeOk(c: Channel, stopOk: bool, unloadOk: bool)
    requires Valid(c) && VolumeOk(c) && c.isMounted
    ensures VolumeOk(Unmount(c, stopOk, unloadOk))
  {
  }

  lemma ApplyVolumeOk(c: Channel, e: Event)
    requires Valid(c) && VolumeOk(c) && KnobOk(e)
    ensures VolumeOk(Apply(c, e))
  {
    match e
    case Props(active, file) =>
    case Resume(i, ok) =>
      if i < |c.runs| {
        StepVolumeOk(c, i, ok);
      }
    case Knob(v, ok) =>
      if c.isMounted {
        ChangeVolumeVolumeOk(c, v);
      }
    case Teardown(stopOk, unloadOk) =>
      if c.isMounted {
        UnmountVolumeOk(c, stopOk, unloadOk);
      }
  }

  lemma {:induction false} ReplayVolumeOk(c: Channel, es: seq<Event>)
    requires Valid(c) && VolumeOk(c) && KnobsOk(es)
    ensures VolumeOk(Replay(c, es))
    decreases |es|
  {
    if es != [] {
      ApplyVolumeOk(c, es[0]);
      assert KnobsOk(es[1..]) by {
        forall k | 0 <= k < |es[1..]| ensures KnobOk(es[1..][k]) { assert es[1..][k] == es[k + 1]; }
      }
      ReplayVolumeOk(Apply(c, es[0]), es[1..]);
    }
  }

  /**
   * In every reachable state where the volume calls of the knob succeed, the
   * registered sound plays at the volume captured by the run that registered
   * it, or at the knob's current volume once a knob turn has reached it.
   */
  lemma RegisteredVolume(active: bool, file: nat, es: seq<Event>)
    requires KnobsOk(es)
    ensures var c := Replay(Mount(active, file), es);
      c.soundRef.Some? ==>
        var v := c.sounds[c.soundRef.value].volume;
        v == Last(c).volume as real / 100.0 || v == c.volume as real / 100.0
  {
    ReplayVolumeOk(Mount(active, file), es);
  }

  /**
   * A knob turn made while the newest run is loading its sound never reaches
   * that sound: the run loads at the volume it captured, the volume effect
   * finds `soundRef` empty, and nothing applies the volume after the sound is
   * registered. The channel settles, playing at 70 % while the knob shows 40.
   */
  lemma KnobDuringLoadIsLost()
    ensures var c := Replay(Mount(true, 1), [Knob(40, true), Resume(0, true), Resume(0, true)]);
      && Settled(c) && c.isMounted && c.isActive && !c.isProcessing
      && c.volume == 40 && c.soundRef == Some(0)
      && c.sounds[0].status == Playing && c.sounds[0].volume == 0.7
  {
    var es := [Knob(40, true), Resume(0, true), Resume(0, true)];
    var c0 := Mount(true, 1);
    var c1 := Apply(c0, es[0]);
    var c2 := Apply(c1, es[1]);
    var c3 := Apply(c2, es[2]);
    assert c1.soundRef.None? && c1.volume == 40 && c1.runs[0].pc.Create? && c1.runs[0].volume == 70;
    assert c2.sounds == [Sound(1, true, 0.7, Loaded, 0, false)] && c2.runs[0].pc == Play(0);
    assert Replay(c0, es) == Replay(c1, es[1..]);
    assert es[1..][1..] == es[2..];
    assert Replay(c1, es[1..]) == Replay(c2, es[2..]);
    assert Replay(c2, es[2..]) == Replay(c3, es[2..][1..]);
    assert es[2..][1..] == [];
  }

  // ---------------------------------------------------------------------------
  // A superseded run

  /** A run keeps its own part of the invariant across its own steps. */
  lemma StepKeepsRunOk(c: Channel, i: nat, ok: bool)
    requires i < |c.runs| && RunOk(c, i)
    ensures RunOk(Step(c, i, ok), i)
  {
    StepResumes(c, i, ok);
  }

  /** Run `i` resumed `n` times, every awaited call succeeding. */
  function Drive(c: Channel, i: nat, n: nat): (r: Channel)
    requires i < |c.runs| && RunOk(c, i)
    ensures |r.runs| == |c.runs| && RunOk(r, i) && |c.sounds| <= |r.sounds|
    ensures r.isMounted == c.isMounted && r.currentAborted == c.currentAborted
    decreases n
  {
    if n == 0 then c
    else
      StepKeepsRunOk(c, i, true);
      Drive(Step(c, i, true), i, n - 1)
  }

  /** How many more successful steps an aborted run takes to return. */
  function Remaining(pc: Pc): (n: nat)
    ensures n <= 3 && (n == 0 <==> pc.Done?)
  {
    match pc
    case Done => 0
    case RetireUnload(_) => 1
    case DiscardUnload(_) => 1
    case RetireStop(_) => 2
    case Create => 2
    case DiscardStop(_) => 2
    case Play(_) => 3
  }

  /**
   * One successful step of an aborted run: it moves one await closer to its
   * end, leaves soundRef and the processing flag alone, keeps the sound it
   * holds until it has unloaded it, and holds any sound it loads.
   */
  lemma AbortedStep(c: Channel, i: nat)
    requires i < |c.runs| && RunOk(c, i) && Aborted(c, i) && !c.runs[i].pc.Done?
    ensures var r := Step(c, i, true);
      && r.soundRef == c.soundRef && r.isProcessing == c.isProcessing
      && Remaining(r.runs[i].pc) + 1 == Remaining(c.runs[i].pc)
      && (c.runs[i].pc.HasSound() ==>
            var h := c.runs[i].pc.sound;
            h < |r.sounds| && (r.runs[i].pc.Holds(h) || (r.runs[i].pc.Done? && r.sounds[h].status == Unloaded)))
      && (forall j :: |c.sounds| <= j < |r.sounds| ==> r.runs[i].pc.Holds(j))
  {
    StepResumes(c, i, true);
  }

  /** Driving a run that has returned changes nothing. */
  lemma {:induction false} DriveDone(c: Channel, i: nat, n: nat)
    requires i < |c.runs| && RunOk(c, i) && c.runs[i].pc.Done?
    ensures Drive(c, i, n) == c
    decreases n
  {
    if n > 0 {
      assert Step(c, i, true) == c;
      DriveDone(c, i, n - 1);
    }
  }

  /**
   * An aborted run whose calls succeed returns once driven as many steps as it
   * has awaits left, and never touches soundRef or the processing flag.
   */
  lemma {:induction false} DriveReturns(c: Channel, i: nat, n: nat)
    requires i < |c.runs| && RunOk(c, i) && Aborted(c, i) && Remaining(c.runs[i].pc) <= n
    ensures var d := Drive(c, i, n);
      d.runs[i].pc.Done? && d.soundRef == c.soundRef && d.isProcessing == c.isProcessing
    decreases n
  {
    if c.runs[i].pc.Done? {
      DriveDone(c, i, n);
    } else {
      StepKeepsRunOk(c, i, true);
      AbortedStep(c, i);
      DriveReturns(Step(c, i, true), i, n - 1);
    }
  }

  /**
   * Driven as many steps as it has awaits left, an aborted run whose calls
   * succeed unloads the sound it was working on and every sound it loaded.
   */
  lemma {:induction false} DriveUnloads(c: Channel, i: nat, n: nat)
    requires i < |c.runs| && RunOk(c, i) && Aborted(c, i) && Remaining(c.runs[i].pc) <= n
    ensures var d := Drive(c, i, n);
      && (c.runs[i].pc.HasSound() ==>
            var h := c.runs[i].pc.sound;
            h < |d.sounds| && d.sounds[h].status == Unloaded)
      && (forall j :: |c.sounds| <= j < |d.sounds| ==> d.sounds[j].status == Unloaded)
    decreases n
  {
    if c.runs[i].pc.Done? {
      DriveDone(c, i, n);
    } else {
      StepKeepsRunOk(c, i, true);
      AbortedStep(c, i);
      var c1 := Step(c, i, true);
      assert Drive(c, i, n) == Drive(c1, i, n - 1);
      if c1.runs[i].pc.Done? {
        DriveDone(c1, i, n - 1);
      } else {
        DriveUnloads(c1, i, n - 1);
      }
      UnloadsOn(c, c1, Drive(c1, i, n - 1), i);
    }
  }

  /**
   * The inductive step of DriveUnloads: run `i` of `c` has taken its first
   * step, to `c1`, and the rest of the drive has led from `c1` to `d`.
   */
  lemma UnloadsOn(c: Channel, c1: Channel, d: Channel, i: nat)
    requires i < |c.runs| && RunOk(c, i) && |c.sounds| <= |c1.sounds| <= |d.sounds|
    requires |c1.runs| == |c.runs| && RunOk(c1, i)
    requires c.runs[i].pc.HasSound() ==>
      var h := c.runs[i].pc.sound;
      h < |c1.sounds| && (c1.runs[i].pc.Holds(h) || (c1.runs[i].pc.Done? && c1.sounds[h].status == Unloaded))
    requires forall j :: |c.sounds| <= j < |c1.sounds| ==> c1.runs[i].pc.Holds(j)
    requires c1.runs[i].pc.Done? ==> d == c1
    requires c1.runs[i].pc.HasSound() ==> d.sounds[c1.runs[i].pc.sound].status == Unloaded
    requires forall j :: |c1.sounds| <= j < |d.sounds| ==> d.sounds[j].status == Unloaded
    ensures c.runs[i].pc.HasSound() ==> d.sounds[c.runs[i].pc.sound].status == Unloaded
    ensures forall j :: |c.sounds| <= j < |d.sounds| ==> d.sounds[j].status == Unloaded
  {
    if c1.runs[i].pc.Done? {
      assert !c1.runs[i].pc.Holds(|c.sounds|);
    }
    forall j | |c.sounds| <= j < |d.sounds|
      ensures d.sounds[j].status == Unloaded
    {
      if j < |c1.sounds| { assert c1.runs[i].pc.Holds(j); }
    }
  }

  /**
   * A run that has been superseded (or whose component has unmounted) and
   * whose calls succeed returns within three steps, never touches soundRef or
   * the processing flag, and unloads the sound it was working on and any
   * sound it loaded.
   */
  lemma SupersededRunReleases(c: Channel, i: nat)
    requires Valid(c) && i < |c.runs| && Aborted(c, i)
    ensures RunOk(c, i)
    ensures var d := Drive(c, i, 3);
      && d.runs[i].pc.Done? && d.soundRef == c.soundRef && d.isProcessing == c.isProcessing
      && (c.runs[i].pc.HasSound() ==>
            var h := c.runs[i].pc.sound;
            h < |d.sounds| && d.sounds[h].status == Unloaded)
      && (forall j :: |c.sounds| <= j < |d.sounds| ==> d.sounds[j].status == Unloaded)
  {
    assert RunOk(c, i);
    DriveReturns(c, i, 3);
    DriveUnloads(c, i, 3);
  }
}
