/**
 * The home screen (app/index.tsx): which scene is shown, which channels of
 * each scene are switched on, the per-channel toggle debounce and the
 * auto-sleep reset to the start screen. The scene catalogue is a constant.
 */
module Home {
  import opened Wrappers
  import AutoSleep

  /** The scene catalogue: three scenes of four channels each. */
  const SCENE_SIZES: seq<nat> := [4, 4, 4]
  /** Two accepted toggles of one channel are at least this many milliseconds apart. */
  const TOGGLE_DEBOUNCE_MS: int := 200
  /** The idle time after which the app goes back to its start screen. */
  const AUTO_SLEEP_TIMEOUT: nat := 60000

  /** `channelStates`: one row per scene, one flag per channel of that scene. */
  type Flags = seq<seq<bool>>

  /** The screen state: the three `useState` values and `lastToggleRef`. */
  datatype Screen = Screen(hasStarted: bool, currentScene: nat, channelStates: Flags, lastToggle: map<string, int>)

  /** Row `s` has as many flags as scene `s` has channels, for every scene. */
  predicate Shaped(f: Flags)
  {
    |f| == |SCENE_SIZES| && forall s :: 0 <= s < |f| ==> |f[s]| == SCENE_SIZES[s]
  }

  predicate SameShape(f: Flags, g: Flags)
  {
    |f| == |g| && forall s :: 0 <= s < |f| ==> |f[s]| == |g[s]|
  }

  predicate AllOff(f: Flags)
  {
    forall s, ch :: 0 <= s < |f| && 0 <= ch < |f[s]| ==> !f[s][ch]
  }

  /** The first render: not started, the first scene, every channel off, no toggle recorded. */
  function Initial(): (sc: Screen)
    ensures !sc.hasStarted && sc.currentScene == 0
    ensures Shaped(sc.channelStates) && AllOff(sc.channelStates)
    ensures sc.lastToggle == map[]
  {
    Screen(false, 0, seq(|SCENE_SIZES|, s requires 0 <= s < |SCENE_SIZES| => seq(SCENE_SIZES[s], _ => false)), map[])
  }

  // ---------------------------------------------------------------------------
  // Scene navigation

  /** handleNextScene's updater. */
  function Next(i: nat, n: nat): (j: nat)
    requires n > 0
    ensures j < n
  {
    (i + 1) % n
  }

  /** handlePrevScene's updater; its left operand is never negative, so JavaScript's `%` agrees with Dafny's. */
  function Prev(i: nat, n: nat): (j: nat)
    requires n > 0
    ensures j < n
  {
    (i - 1 + n) % n
  }

  /** Within range, next is the successor with wrap-around and prev the predecessor with wrap-around. */
  lemma NavigationSteps(i: nat, n: nat)
    requires i < n
    ensures Next(i, n) == if i == n - 1 then 0 else i + 1
    ensures Prev(i, n) == if i == 0 then n - 1 else i - 1
  {
    if i == n - 1 {
      assert i + 1 == n;
    } else {
      assert i + 1 < n;
    }
    if i == 0 {
      assert i - 1 + n == n - 1;
    } else {
      assert n <= i - 1 + n < 2 * n;
      ModOfShifted(i - 1, n);
    }
  }

  lemma ModOfShifted(k: nat, n: nat)
    requires k < n
    ensures (k + n) % n == k
  {
    assert (k + n) / n == 1;
  }

  /** Next and prev undo each other on every scene index. */
  lemma NavigationInverse(i: nat, n: nat)
    requires i < n
    ensures Prev(Next(i, n), n) == i && Next(Prev(i, n), n) == i
  {
    NavigationSteps(i, n);
    NavigationSteps(Next(i, n), n);
    NavigationSteps(Prev(i, n), n);
  }

  // ---------------------------------------------------------------------------
  // The debounce key

  /** A decimal digit. */
  function Digit(d: nat): (c: char)
    requires d < 10
    ensures c as int == '0' as int + d
  {
    ('0' as int + d) as char
  }

  /** JavaScript's decimal rendering of a natural number, as a template literal produces it. */
  function NatToString(n: nat): (s: string)
    ensures |s| > 0 && (|s| == 1 <==> n < 10)
    ensures forall k :: 0 <= k < |s| ==> '0' <= s[k] <= '9'
  {
    if n < 10 then [Digit(n)] else NatToString(n / 10) + [Digit(n % 10)]
  }

  /** The `${scene}-${channel}` key of lastToggleRef. */
  function Key(scene: nat, ch: nat): string
  {
    NatToString(scene) + "-" + NatToString(ch)
  }

  /** Different numbers render differently. */
  lemma {:induction false} NatToStringInjective(a: nat, b: nat)
    requires NatToString(a) == NatToString(b)
    ensures a == b
    decreases a
  {
    var s := NatToString(a);
    if a >= 10 {
      assert b >= 10;
      assert s[..|s| - 1] == NatToString(a / 10) == NatToString(b / 10);
      NatToStringInjective(a / 10, b / 10);
      assert Digit(a % 10) == s[|s| - 1] == Digit(b % 10);
    } else {
      assert Digit(a) == s[0] == Digit(b);
    }
  }

  /** Distinct (scene, channel) pairs have distinct keys, so their debounce entries never share a slot. */
  lemma KeyInjective(s1: nat, c1: nat, s2: nat, c2: nat)
    requires Key(s1, c1) == Key(s2, c2)
    ensures s1 == s2 && c1 == c2
  {
    SplitAtDash(NatToString(s1), NatToString(c1), NatToString(s2), NatToString(c2));
    NatToStringInjective(s1, s2);
    NatToStringInjective(c1, c2);
  }

  /** A dash after a run of digits marks where the first part ends. */
  lemma SplitAtDash(x1: string, y1: string, x2: string, y2: string)
    requires forall k :: 0 <= k < |x1| ==> '0' <= x1[k] <= '9'
    requires forall k :: 0 <= k < |x2| ==> '0' <= x2[k] <= '9'
    requires x1 + "-" + y1 == x2 + "-" + y2
    ensures x1 == x2 && y1 == y2
  {
    var k := x1 + "-" + y1;
    FirstDash(x1, y1);
    FirstDash(x2, y2);
    assert |x1| == |x2|;
    assert x1 == k[..|x1|] == x2;
    assert y1 == k[|x1| + 1..] == y2;
  }

  /** In a run of digits followed by a dash, the dash is the first one. */
  lemma FirstDash(x: string, y: string)
    requires forall k :: 0 <= k < |x| ==> '0' <= x[k] <= '9'
    ensures (x + "-" + y)[|x|] == '-'
    ensures forall j :: 0 <= j < |x| ==> (x + "-" + y)[j] != '-'
  {
    forall j | 0 <= j < |x| ensures (x + "-" + y)[j] != '-' {
      assert (x + "-" + y)[j] == x[j];
    }
  }

  /** `lastToggleRef.current[key] || 0`: a missing key reads as 0. */
  function LastToggle(m: map<string, int>, key: string): int
  {
    if key in m then m[key] else 0
  }

  /** The debounce test of toggleChannel. */
  predicate Accepts(m: map<string, int>, key: string, now: int)
  {
    now - LastToggle(m, key) >= TOGGLE_DEBOUNCE_MS
  }

  // ---------------------------------------------------------------------------
  // The channel flags

  /** The copy-on-write flip of one flag: a new outer array and a new row for `s`. */
  function Flip(f: Flags, s: nat, ch: nat): (r: Flags)
    requires s < |f| && ch < |f[s]|
    ensures SameShape(r, f)
    ensures r[s][ch] == !f[s][ch]
    ensures forall t, k :: 0 <= t < |f| && 0 <= k < |f[t]| && (t, k) != (s, ch) ==> r[t][k] == f[t][k]
  {
    f[s := f[s][ch := !f[s][ch]]]
  }

  /** Flipping the same flag twice gives back the original flags. */
  lemma FlipTwice(f: Flags, s: nat, ch: nat)
    requires s < |f| && ch < |f[s]|
    ensures Flip(Flip(f, s, ch), s, ch) == f
  {
    var g := Flip(Flip(f, s, ch), s, ch);
    forall t | 0 <= t < |f| ensures g[t] == f[t] {
      assert |g[t]| == |f[t]|;
    }
  }

  /** handleSleep's updater: every flag off, one row per scene as before. */
  function SwitchOff(f: Flags): (r: Flags)
    ensures SameShape(r, f) && AllOff(r)
  {
    seq(|f|, s requires 0 <= s < |f| => seq(|f[s]|, _ => false))
  }

  /** Switching off is the only all-off array of its shape, so it is idempotent. */
  lemma SwitchOffUnique(f: Flags, g: Flags)
    requires SameShape(g, f) && AllOff(g)
    ensures SwitchOff(f) == g
  {
    var r := SwitchOff(f);
    forall s | 0 <= s < |f| ensures r[s] == g[s] {
      assert |r[s]| == |g[s]|;
    }
  }

  // ---------------------------------------------------------------------------
  // The handlers on the screen state

  /** handleSleep: nothing before the start; afterwards back to the start screen with every channel off. */
  function Sleep(sc: Screen): (r: Screen)
    ensures !sc.hasStarted ==> r == sc
    ensures sc.hasStarted ==> !r.hasStarted && r.currentScene == 0 && AllOff(r.channelStates)
    ensures SameShape(r.channelStates, sc.channelStates) && r.lastToggle == sc.lastToggle
  {
    if !sc.hasStarted then sc
    else sc.(hasStarted := false, currentScene := 0, channelStates := SwitchOff(sc.channelStates))
  }

  /** A second sleep changes nothing. */
  lemma SleepIdempotent(sc: Screen)
    ensures Sleep(Sleep(sc)) == Sleep(sc)
  {
  }

  /**
   * toggleChannel for `ch` of the current scene at time `now`: a toggle
   * within the debounce window of the previous accepted one for the same key
   * is rejected and changes nothing; an accepted one records `now` under the
   * key and flips that one flag.
   */
  function Toggle(sc: Screen, ch: nat, now: int): (r: (Screen, bool))
    requires sc.currentScene < |sc.channelStates| && ch < |sc.channelStates[sc.currentScene]|
    ensures r.1 <==> Accepts(sc.lastToggle, Key(sc.currentScene, ch), now)
    ensures !r.1 ==> r.0 == sc
    ensures r.1 ==> r.0 == sc.(lastToggle := sc.lastToggle[Key(sc.currentScene, ch) := now],
                               channelStates := Flip(sc.channelStates, sc.currentScene, ch))
  {
    var key := Key(sc.currentScene, ch);
    if now - LastToggle(sc.lastToggle, key) < TOGGLE_DEBOUNCE_MS then (sc, false)
    else (sc.(lastToggle := sc.lastToggle[key := now],
              channelStates := Flip(sc.channelStates, sc.currentScene, ch)), true)
  }

  /** A toggle of one channel leaves the debounce outcome of every other (scene, channel) pair as it was. */
  lemma ToggleKeepsOtherKeys(sc: Screen, ch: nat, now: int, scene: nat, other: nat, later: int)
    requires sc.currentScene < |sc.channelStates| && ch < |sc.channelStates[sc.currentScene]|
    requires (scene, other) != (sc.currentScene, ch)
    ensures Accepts(Toggle(sc, ch, now).0.lastToggle, Key(scene, other), later)
        <==> Accepts(sc.lastToggle, Key(scene, other), later)
  {
    if Key(scene, other) == Key(sc.currentScene, ch) {
      KeyInjective(scene, other, sc.currentScene, ch);
    }
  }

  /** After an accepted toggle, the same channel is rejected for the next 200 ms and accepted again from then on. */
  lemma ToggleDebounceWindow(sc: Screen, ch: nat, now: int, later: int)
    requires sc.currentScene < |sc.channelStates| && ch < |sc.channelStates[sc.currentScene]|
    requires Toggle(sc, ch, now).1
    ensures Toggle(Toggle(sc, ch, now).0, ch, later).1 <==> later - now >= TOGGLE_DEBOUNCE_MS
  {
  }

  /** handleStart. */
  function Start(sc: Screen): (r: Screen)
    ensures r.hasStarted && r == sc.(hasStarted := true)
  {
    sc.(hasStarted := true)
  }

  /** The identity of the handleSleep closure of a render: it captures `hasStarted`. */
  function SleepCallback(hasStarted: bool): nat
  {
    if hasStarted then 1 else 0
  }

  /**
   * The home screen as an object: its state and `lastToggleRef` are fields
   * the handlers update, and `sleep` is the auto-sleep hook it owns.
   */
  class HomeScreen {
    var hasStarted: bool
    var currentScene: nat
    var channelStates: Flags
    var lastToggle: map<string, int>
    const sleep: AutoSleep.AutoSleepTimer

    function Model(): Screen
      reads this
    {
      Screen(hasStarted, currentScene, channelStates, lastToggle)
    }

    /**
     * The flags have the catalogue's shape, the scene index is in range, and
     * the hook holds this render's handleSleep and the 60-second timeout.
     */
    ghost predicate Valid()
      reads this, sleep
    {
      Shaped(channelStates) && currentScene < |SCENE_SIZES|
      && sleep.onSleep == SleepCallback(hasStarted) && sleep.timeout == AUTO_SLEEP_TIMEOUT
    }

    /** The first render; the hook's mount effect arms the timer. */
    constructor(now: int)
      ensures Valid() && Model() == Initial()
      ensures sleep.Model() == AutoSleep.Mount(AUTO_SLEEP_TIMEOUT, SleepCallback(false), now)
    {
      var sc := Initial();
      hasStarted := sc.hasStarted;
      currentScene := sc.currentScene;
      channelStates := sc.channelStates;
      lastToggle := sc.lastToggle;
      sleep := new AutoSleep.AutoSleepTimer(AUTO_SLEEP_TIMEOUT, SleepCallback(false), now);
    }

    /** The render after a state change hands the hook the new handleSleep. */
    method Render()
      modifies sleep
      ensures sleep.Model() == old(sleep.Model()).(onSleep := SleepCallback(hasStarted))
    {
      sleep.Rerender(SleepCallback(hasStarted));
    }

    /** handleSleep, run as the current render's closure. */
    method HandleSleep()
      requires Valid()
      modifies this, sleep
      ensures Valid() && Model() == Sleep(old(Model()))
      ensures sleep.deadline == old(sleep.deadline)
    {
      if !hasStarted {
        return;
      }
      channelStates := SwitchOff(channelStates);
      currentScene := 0;
      hasStarted := false;
      Render();
    }

    /** handlePrevScene: the previous scene, with wrap-around, and a timer restart. */
    method HandlePrevScene(now: int)
      requires Valid()
      modifies this, sleep
      ensures Valid() && Model() == old(Model()).(currentScene := Prev(old(currentScene), |SCENE_SIZES|))
      ensures sleep.Model() == AutoSleep.Reset(old(sleep.Model()), now)
    {
      currentScene := Prev(currentScene, |SCENE_SIZES|);
      sleep.ResetTimer(now);
    }

    /** handleNextScene: the next scene, with wrap-around, and a timer restart. */
    method HandleNextScene(now: int)
      requires Valid()
      modifies this, sleep
      ensures Valid() && Model() == old(Model()).(currentScene := Next(old(currentScene), |SCENE_SIZES|))
      ensures sleep.Model() == AutoSleep.Reset(old(sleep.Model()), now)
    {
      currentScene := Next(currentScene, |SCENE_SIZES|);
      sleep.ResetTimer(now);
    }

    /**
     * toggleChannel(ch) at time `now`; only the channels of the current
     * scene have a button. An accepted toggle restarts the timer; a rejected
     * one leaves everything as it was.
     */
    method ToggleChannel(ch: nat, now: int) returns (accepted: bool)
      requires Valid() && ch < SCENE_SIZES[currentScene]
      modifies this, sleep
      ensures Valid() && (Model(), accepted) == Toggle(old(Model()), ch, now)
      ensures sleep.Model() == if accepted then AutoSleep.Reset(old(sleep.Model()), now) else old(sleep.Model())
    {
      var key := Key(currentScene, ch);
      var last := if key in lastToggle then lastToggle[key] else 0;
      if now - last < TOGGLE_DEBOUNCE_MS {
        return false;
      }
      lastToggle := lastToggle[key := now];
      channelStates := Flip(channelStates, currentScene, ch);
      sleep.ResetTimer(now);
      accepted := true;
    }

    /** handleStart: the start screen gives way to the mixer and the timer restarts. */
    method HandleStart(now: int)
      requires Valid()
      modifies this, sleep
      ensures Valid() && Model() == Start(old(Model()))
      ensures sleep.Model() == AutoSleep.Reset(old(sleep.Model()), now).(onSleep := SleepCallback(true))
    {
      hasStarted := true;
      sleep.ResetTimer(now);
      Render();
    }

    /** A scroll gesture on the portrait layout restarts the timer and nothing else. */
    method HandleScroll(now: int)
      requires Valid()
      modifies sleep
      ensures Valid() && sleep.Model() == AutoSleep.Reset(old(sleep.Model()), now)
    {
      sleep.ResetTimer(now);
    }

    /**
     * The clock reaches `now`. A due timer calls the handleSleep the hook
     * holds, which is the one of the latest render, so it sees the current
     * `hasStarted`.
     */
    method Tick(now: int) returns (fired: bool)
      requires Valid()
      modifies this, sleep
      ensures Valid()
      ensures fired <==> old(sleep.deadline).Some? && old(sleep.deadline).value <= now
      ensures Model() == if fired then Sleep(old(Model())) else old(Model())
      ensures sleep.deadline == if fired then None else old(sleep.deadline)
    {
      var called := sleep.Tick(now);
      fired := called.Some?;
      if fired {
        assert called.value == SleepCallback(hasStarted);
        HandleSleep();
      }
    }
  }
}
