/**
 * The AudioChannel component as an object: its state and refs are fields
 * that the effects and handlers update in place, and each method is proved
 * to move the fields exactly as the lifecycle machine in ChannelLifecycle
 * says, so everything proved there holds of the object.
 */
module AudioChannelComponent {
  import opened Wrappers
  import opened ChannelLifecycle

  class AudioChannel {
    // props
    var isActive: bool
    var file: nat
    // state
    var volume: int
    var isProcessing: bool
    // refs
    var soundRef: Option<nat>
    var isMounted: bool
    /** Whether unmount has aborted the controller held in `abortControllerRef`. */
    var currentAborted: bool
    // the runs of manageSound started so far, and the sounds handed out to this channel
    var runs: seq<Run>
    var sounds: seq<Sound>

    function Model(): Channel
      reads this
    {
      Channel(isActive, file, volume, soundRef, runs, currentAborted, isMounted, isProcessing, sounds)
    }

    ghost predicate Valid()
      reads this
    {
      ChannelLifecycle.Valid(Model())
    }

    /** The first render: volume 70, the refs empty, then the effects run and start the first run. */
    constructor(active: bool, channelFile: nat)
      ensures Valid() && Model() == Mount(active, channelFile)
    {
      isActive := active;
      file := channelFile;
      volume := INITIAL_VOLUME;
      isProcessing := false;
      soundRef := None;
      isMounted := true;
      currentAborted := false;
      runs := [];
      sounds := [];
      new;
      StartPreservesValid(Model(), active, channelFile);
      ManageSound(active, channelFile);
    }

    /**
     * A render with the props `active` and `channelFile`, after which the
     * sound effect runs manageSound. Its synchronous part supersedes the
     * previous controller with a new one, sets the processing flag and takes a
     * registered sound out of `soundRef` to be retired. With nothing to retire,
     * an active run goes straight to loading and an inactive one ends.
     */
    method ManageSound(active: bool, channelFile: nat)
      requires Valid() && isMounted
      modifies this
      ensures Model() == Start(old(Model()), active, channelFile)
    {
      isActive := active;
      file := channelFile;
      currentAborted := false;
      isProcessing := true;
      if soundRef.Some? {
        var oldSound := soundRef.value;
        soundRef := None;
        runs := runs + [Run(isActive, file, volume, RetireStop(oldSound), false)];
      } else {
        runs := runs + [Run(isActive, file, volume, Done, false)];
        ContinueAfterRetire(|runs| - 1);
      }
    }

    /** A re-render: the sound effect runs only when `isActive` or the file changed. */
    method Rerender(active: bool, channelFile: nat)
      requires Valid() && isMounted
      modifies this
      ensures Valid() && Model() == ChannelLifecycle.Rerender(old(Model()), active, channelFile)
    {
      if active != isActive || channelFile != file {
        StartPreservesValid(Model(), active, channelFile);
        ManageSound(active, channelFile);
      }
    }

    /**
     * Run `i` resumes after its await, whose audio call succeeded when `ok`,
     * and goes on up to its next await or its end.
     */
    method Resume(i: nat, ok: bool)
      requires Valid() && i < |runs|
      modifies this
      ensures Valid() && Model() == Step(old(Model()), i, ok)
    {
      assert RunOk(Model(), i);
      StepPreservesValid(Model(), i, ok);
      match runs[i].pc
      case Done =>
      case RetireStop(s) => OldStopped(i, s, ok);
      case RetireUnload(s) => OldUnloaded(i, s, ok);
      case Create => Created(i, ok);
      case Play(s) => Played(i, s, ok);
      case DiscardStop(s) => OwnStopped(i, s, ok);
      case DiscardUnload(s) => OwnUnloaded(i, s, ok);
    }

    /** `await oldSound.stopAsync()` returned or threw; a throw skips the unload. */
    method OldStopped(i: nat, s: nat, ok: bool)
      requires i < |runs| && s < |sounds| && runs[i].pc == RetireStop(s)
      modifies this
      ensures Model() == StopOld(old(Model()), i, s, ok)
    {
      if ok {
        sounds := sounds[s := sounds[s].(status := Stopped)];
        runs := runs[i := runs[i].(pc := RetireUnload(s))];
      } else {
        sounds := sounds[s := sounds[s].(fault := true)];
        ContinueAfterRetire(i);
      }
    }

    /** `await oldSound.unloadAsync()` returned or threw. */
    method OldUnloaded(i: nat, s: nat, ok: bool)
      requires i < |runs| && s < |sounds| && runs[i].pc == RetireUnload(s)
      modifies this
      ensures Model() == UnloadOld(old(Model()), i, s, ok)
    {
      if ok {
        sounds := sounds[s := sounds[s].(status := Unloaded)];
      } else {
        sounds := sounds[s := sounds[s].(fault := true)];
      }
      ContinueAfterRetire(i);
    }

    /** `await Audio.Sound.createAsync(...)` returned a new sound or threw. */
    method Created(i: nat, ok: bool)
      requires i < |runs| && runs[i].pc.Create?
      modifies this
      ensures Model() == Load(old(Model()), i, ok)
    {
      if ok {
        var aborted := IsAborted(i);
        var n := |sounds|;
        sounds := sounds + [Sound(runs[i].file, true, runs[i].volume as real / 100.0, Loaded, i, false)];
        var next := if aborted then DiscardUnload(n) else Play(n);
        runs := runs[i := runs[i].(pc := next)];
      } else {
        runs := runs[i := runs[i].(failed := true)];
        EndRun(i);
      }
    }

    /** `await newSound.playAsync()` returned or threw. */
    method Played(i: nat, s: nat, ok: bool)
      requires i < |runs| && s < |sounds| && runs[i].pc == Play(s)
      modifies this
      ensures Model() == PlayNew(old(Model()), i, s, ok)
    {
      var aborted := IsAborted(i);
      if !ok {
        sounds := sounds[s := sounds[s].(fault := true)];
        runs := runs[i := runs[i].(failed := true)];
        EndRun(i);
      } else if aborted {
        sounds := sounds[s := sounds[s].(status := Playing)];
        runs := runs[i := runs[i].(pc := DiscardStop(s))];
      } else {
        sounds := sounds[s := sounds[s].(status := Playing)];
        soundRef := Some(s);
        EndRun(i);
      }
    }

    /** `await newSound.stopAsync()` of an aborted run returned or threw. */
    method OwnStopped(i: nat, s: nat, ok: bool)
      requires i < |runs| && s < |sounds| && runs[i].pc == DiscardStop(s) && Aborted(Model(), i)
      modifies this
      ensures Model() == StopOwn(old(Model()), i, s, ok)
    {
      if ok {
        sounds := sounds[s := sounds[s].(status := Stopped)];
        runs := runs[i := runs[i].(pc := DiscardUnload(s))];
      } else {
        sounds := sounds[s := sounds[s].(fault := true)];
        EndRun(i);
      }
    }

    /** `await newSound.unloadAsync()` of an aborted run returned or threw. */
    method OwnUnloaded(i: nat, s: nat, ok: bool)
      requires i < |runs| && s < |sounds| && runs[i].pc == DiscardUnload(s) && Aborted(Model(), i)
      modifies this
      ensures Model() == UnloadOwn(old(Model()), i, s, ok)
    {
      if ok {
        sounds := sounds[s := sounds[s].(status := Unloaded)];
      } else {
        sounds := sounds[s := sounds[s].(fault := true)];
      }
      EndRun(i);
    }

    /** `isAborted()` as run `i` evaluates it. */
    method IsAborted(i: nat) returns (aborted: bool)
      ensures aborted == Aborted(Model(), i)
    {
      aborted := i + 1 < |runs| || currentAborted || !isMounted;
    }

    /** After retirement an active, unaborted run goes on to load; any other run ends. */
    method ContinueAfterRetire(i: nat)
      requires i < |runs|
      modifies this
      ensures Model() == AfterRetire(old(Model()), i)
    {
      var aborted := IsAborted(i);
      if runs[i].active && !aborted {
        runs := runs[i := runs[i].(pc := Create)];
      } else {
        EndRun(i);
      }
    }

    /** The run returns; its `finally` clears the processing flag unless it is aborted. */
    method EndRun(i: nat)
      requires i < |runs|
      modifies this
      ensures Model() == Finish(old(Model()), i)
    {
      var aborted := IsAborted(i);
      runs := runs[i := runs[i].(pc := Done)];
      if !aborted {
        isProcessing := false;
      }
    }

    /** handleVolumeChange: the new volume re-runs the volume effect when it differs. */
    method HandleVolumeChange(newVolume: int, ok: bool)
      requires Valid()
      modifies this
      ensures Valid() && Model() == ChangeVolume(old(Model()), newVolume, ok)
    {
      ChangeVolumePreservesValid(Model(), newVolume, ok);
      if newVolume != volume {
        volume := newVolume;
        if soundRef.Some? && isActive && ok {
          var s := soundRef.value;
          sounds := sounds[s := sounds[s].(volume := volume as real / 100.0)];
        }
      }
    }

    /** The unmount cleanups. */
    method Unmount(stopOk: bool, unloadOk: bool)
      requires Valid() && isMounted
      modifies this
      ensures Valid() && Model() == ChannelLifecycle.Unmount(old(Model()), stopOk, unloadOk)
    {
      UnmountPreservesValid(Model(), stopOk, unloadOk);
      isMounted := false;
      currentAborted := true;
      if soundRef.Some? {
        var s := soundRef.value;
        var status := if unloadOk then Unloaded else if stopOk then Stopped else sounds[s].status;
        sounds := sounds[s := sounds[s].(status := status, fault := !unloadOk)];
        soundRef := None;
      }
    }

    /**
     * handlePress: the press reaches onToggle only when no run is processing,
     * which, while mounted, is exactly when the newest run has returned.
     */
    method HandlePress() returns (forwarded: bool)
      requires Valid()
      ensures forwarded == Press(Model())
      ensures isMounted && |runs| > 0 ==> (forwarded <==> runs[|runs| - 1].pc.Done?)
    {
      if isMounted && |runs| > 0 {
        PressIgnoredWhileProcessing(Model());
      }
      forwarded := !isProcessing;
    }
  }
}
