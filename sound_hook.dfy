/**
 * The useAudioChannel hook: one sound held in the `sound` ref with an
 * `isLoaded` flag beside it, and guarded play, pause and volume operations.
 * Each audio call is stood in for by its effect on the sound and an outcome
 * parameter saying whether it resolved (true) or threw (false).
 */
module SoundHook {
  import opened Wrappers

  /** The sound's playback status as the audio library reports it. */
  datatype Device = Device(looping: bool, volume: real, playing: bool, position: real)

  /** The hook's two refs. */
  datatype Hook = Hook(sound: Option<Device>, isLoaded: bool)

  /** `isLoaded` is only ever set while a sound is held. */
  predicate Valid(h: Hook)
  {
    h.isLoaded ==> h.sound.Some?
  }

  /** Play, pause and volume changes reach the sound only when one is held and loaded. */
  predicate Ready(h: Hook)
  {
    h.sound.Some? && h.isLoaded
  }

  /** The volume `play` uses when called without one. */
  const DEFAULT_PLAY_VOLUME: real := 0.7

  /** The first render: no sound, nothing loaded. */
  const EMPTY: Hook := Hook(None, false)

  /**
   * loadSound: a successful `createAsync` yields a looping, silent, stopped
   * sound at the start and marks it loaded; a failure is caught and leaves
   * both refs as they were.
   */
  function Load(h: Hook, ok: bool): (r: Hook)
    ensures ok ==> r == Hook(Some(Device(true, 0.0, false, 0.0)), true)
    ensures !ok ==> r == h
    ensures Valid(h) ==> Valid(r)
  {
    if ok then Hook(Some(Device(true, 0.0, false, 0.0)), true) else h
  }

  /**
   * unloadSound: with a sound held, a successful `unloadAsync` clears both
   * refs; a throw escapes before they are cleared. Without a sound nothing
   * happens.
   */
  function Unload(h: Hook, ok: bool): (r: Hook)
    ensures h.sound.None? ==> r == h
    ensures h.sound.Some? && ok ==> r == EMPTY
    ensures !ok ==> r == h
    ensures Valid(h) ==> Valid(r)
  {
    if h.sound.Some? && ok then Hook(None, false) else h
  }

  /**
   * play(volume): when ready, set the volume, then read the status and start
   * playback only if it is not already playing. Each of the three calls can
   * throw, which is caught and ends the operation. Playback resumes where the
   * sound stands; the position is never touched.
   */
  function Play(h: Hook, volume: real, volumeOk: bool, statusOk: bool, playOk: bool): (r: Hook)
    ensures !Ready(h) ==> r == h
    ensures r.isLoaded == h.isLoaded && r.sound.Some? == h.sound.Some?
    ensures Ready(h) ==> r.sound.value.position == h.sound.value.position && r.sound.value.looping == h.sound.value.looping
    ensures Ready(h) && volumeOk ==> r.sound.value.volume == volume
    ensures Ready(h) && !volumeOk ==> r == h
    ensures Ready(h) ==> (r.sound.value.playing <==> h.sound.value.playing || (volumeOk && statusOk && playOk))
  {
    if !Ready(h) || !volumeOk then h
    else
      var d := h.sound.value.(volume := volume);
      if statusOk && !d.playing && playOk then h.(sound := Some(d.(playing := true)))
      else h.(sound := Some(d))
  }

  /**
   * pause: when ready, pause, then rewind to the start; a throw is caught and
   * ends the operation, so a failed pause also skips the rewind.
   */
  function Pause(h: Hook, pauseOk: bool, rewindOk: bool): (r: Hook)
    ensures !Ready(h) ==> r == h
    ensures r.isLoaded == h.isLoaded && r.sound.Some? == h.sound.Some?
    ensures Ready(h) && pauseOk ==> !r.sound.value.playing
    ensures Ready(h) && pauseOk && rewindOk ==> r.sound.value.position == 0.0
    ensures Ready(h) && !pauseOk ==> r == h
    ensures Ready(h) ==> r.sound.value.volume == h.sound.value.volume && r.sound.value.looping == h.sound.value.looping
  {
    if !Ready(h) || !pauseOk then h
    else
      var d := h.sound.value.(playing := false);
      h.(sound := Some(if rewindOk then d.(position := 0.0) else d))
  }

  /** setVolume: when ready and the call resolves, the volume and nothing else changes. */
  function SetVolume(h: Hook, volume: real, ok: bool): (r: Hook)
    ensures Ready(h) && ok ==> r == h.(sound := Some(h.sound.value.(volume := volume)))
    ensures !(Ready(h) && ok) ==> r == h
  {
    if Ready(h) && ok then h.(sound := Some(h.sound.value.(volume := volume))) else h
  }

  /** Every operation keeps `isLoaded` implying a held sound. */
  lemma OperationsKeepValid(h: Hook, v: real, a: bool, b: bool, c: bool)
    requires Valid(h)
    ensures Valid(Play(h, v, a, b, c)) && Valid(Pause(h, a, b)) && Valid(SetVolume(h, v, a))
  {
  }

  /**
   * A second play changes nothing about playback: a playing sound is not
   * restarted, whatever the outcome of the second call, and its position
   * stays where it is.
   */
  lemma PlayIdempotent(h: Hook, v1: real, v2: real, a: bool, b: bool, c: bool)
    requires Ready(h)
    ensures var h1 := Play(h, v1, true, true, true);
            var h2 := Play(h1, v2, a, b, c);
            h1.sound.value.playing && h2.sound.value.playing
            && h2.sound.value.position == h1.sound.value.position == h.sound.value.position
  {
  }

  /** After a successful pause, a successful play starts the sound again from the beginning. */
  lemma PauseThenPlayRestarts(h: Hook, v: real)
    requires Ready(h)
    ensures var p := Play(Pause(h, true, true), v, true, true, true);
            p.sound.value.playing && p.sound.value.position == 0.0 && p.sound.value.volume == v
  {
  }

  /**
   * A freshly loaded sound stays silent until it is played, and the first
   * play whose calls all resolve starts it from the beginning, looping, at
   * the volume asked for.
   */
  lemma LoadedSoundPlaysFromStart(h: Hook, v: real)
    ensures var p := Play(Load(h, true), v, true, true, true);
      && p.sound.Some? && p.sound.value.playing && p.sound.value.looping
      && p.sound.value.position == 0.0 && p.sound.value.volume == v
    ensures !Play(Load(h, true), v, true, true, false).sound.value.playing
  {
  }

  /** The hook as an object: the `sound` and `isLoaded` refs, set and cleared in place. */
  class AudioChannelHook {
    var sound: Option<Device>
    var isLoaded: bool

    function Model(): Hook
      reads this
    {
      Hook(sound, isLoaded)
    }

    /** The first render followed by the mount effect, which loads the sound. */
    constructor(loadOk: bool)
      ensures Valid(Model()) && Model() == Load(EMPTY, loadOk)
    {
      sound := None;
      isLoaded := false;
      new;
      LoadSound(loadOk);
    }

    method LoadSound(ok: bool)
      modifies this
      ensures Model() == Load(old(Model()), ok)
    {
      if ok {
        var newSound := Device(true, 0.0, false, 0.0);
        sound := Some(newSound);
        isLoaded := true;
      }
    }

    /** unloadSound, which the unmount cleanup runs. */
    method UnloadSound(ok: bool)
      modifies this
      ensures Model() == Unload(old(Model()), ok)
    {
      if sound.Some? {
        if !ok {
          return;
        }
        sound := None;
        isLoaded := false;
      }
    }

    method PlaySound(volumeOk: bool, statusOk: bool, playOk: bool, volume: real := DEFAULT_PLAY_VOLUME)
      modifies this
      ensures Model() == Play(old(Model()), volume, volumeOk, statusOk, playOk)
    {
      if sound.Some? && isLoaded {
        if !volumeOk {
          return;
        }
        sound := Some(sound.value.(volume := volume));
        if !statusOk {
          return;
        }
        var alreadyPlaying := sound.value.playing;
        if !alreadyPlaying && playOk {
          sound := Some(sound.value.(playing := true));
        }
      }
    }

    method PauseSound(pauseOk: bool, rewindOk: bool)
      modifies this
      ensures Model() == Pause(old(Model()), pauseOk, rewindOk)
    {
      if sound.Some? && isLoaded {
        if !pauseOk {
          return;
        }
        sound := Some(sound.value.(playing := false));
        if rewindOk {
          sound := Some(sound.value.(position := 0.0));
        }
      }
    }

    method SetSoundVolume(volume: real, ok: bool)
      modifies this
      ensures Model() == SetVolume(old(Model()), volume, ok)
    {
      if sound.Some? && isLoaded && ok {
        sound := Some(sound.value.(volume := volume));
      }
    }
  }
}
