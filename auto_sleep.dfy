/**
 * The useAutoSleep hook: one countdown that every interaction restarts and
 * whose expiry calls the most recently rendered `onSleep`. Time is a logical
 * clock passed to each operation; a pending `setTimeout` is its due time.
 */
module AutoSleep {
  import opened Wrappers

  /**
   * The hook's state: the timeout it was created with, the due time of the
   * timer held in `timerRef` (None when nothing is pending) and the callback
   * held in `onSleepRef`, named by an identity.
   */
  datatype Timer = Timer(timeout: nat, deadline: Option<int>, onSleep: nat)

  /** What can happen to the hook: a render with a new `onSleep`, a `resetTimer` call, the clock reaching `now`, the unmount cleanup. */
  datatype Event = Render(callback: nat) | ResetAt(now: int) | TickAt(now: int) | Teardown

  /** `resetTimer`: any pending timer is cleared and a single new one is due `timeout` after `now`. */
  function Reset(t: Timer, now: int): (r: Timer)
    ensures r.deadline.Some? && r.deadline.value - now == t.timeout
    ensures r.timeout == t.timeout && r.onSleep == t.onSleep
  {
    t.(deadline := Some(now + t.timeout))
  }

  /** The first render followed by the mount effect, which arms the timer. */
  function Mount(timeout: nat, onSleep: nat, now: int): (t: Timer)
    ensures t.deadline == Some(now + timeout) && t.onSleep == onSleep && t.timeout == timeout
  {
    Reset(Timer(timeout, None, onSleep), now)
  }

  /**
   * The clock reaches `now`: a timer that is due fires, calling the current
   * `onSleep` once, and nothing is pending afterwards; otherwise nothing happens.
   */
  function Fire(t: Timer, now: int): (r: (Timer, Option<nat>))
    ensures r.1.Some? <==> t.deadline.Some? && t.deadline.value <= now
    ensures r.1.Some? ==> r.1.value == t.onSleep && r.0 == t.(deadline := None)
    ensures r.1.None? ==> r.0 == t
  {
    if t.deadline.Some? && t.deadline.value <= now then (t.(deadline := None), Some(t.onSleep))
    else (t, None)
  }

  /** One event and the callback it invokes, if any. */
  function Apply(t: Timer, e: Event): (r: (Timer, Option<nat>))
    ensures r.0.timeout == t.timeout
    ensures r.1.Some? ==> e.TickAt? && r.1.value == t.onSleep
  {
    match e
    case Render(cb) => (t.(onSleep := cb), None)
    case ResetAt(now) => (Reset(t, now), None)
    case TickAt(now) => Fire(t, now)
    case Teardown => (t.(deadline := None), None)
  }

  /** A sequence of events: the final state and the callbacks invoked, in order. */
  function Run(t: Timer, es: seq<Event>): (r: (Timer, seq<nat>))
    decreases |es|
  {
    if es == [] then (t, [])
    else
      var first := Apply(t, es[0]);
      var rest := Run(first.0, es[1..]);
      (rest.0, (if first.1.Some? then [first.1.value] else []) + rest.1)
  }

  predicate NoReset(es: seq<Event>)
  {
    forall k :: 0 <= k < |es| ==> !es[k].ResetAt?
  }

  /** The callback of the most recent render in `es`, or `cb` when there is none. */
  function Latest(cb: nat, es: seq<Event>): nat
    decreases |es|
  {
    if es == [] then cb
    else if es[|es| - 1].Render? then es[|es| - 1].callback
    else Latest(cb, es[..|es| - 1])
  }

  /** Resetting is a full restart: the new due time does not depend on whatever was pending. */
  lemma ResetIsRestart(t: Timer, u: Timer, now: int)
    requires t.timeout == u.timeout && t.onSleep == u.onSleep
    ensures Reset(t, now) == Reset(u, now)
    ensures Reset(Reset(t, now), now) == Reset(t, now)
  {
  }

  /**
   * Without a reset, the callback is invoked at most once, and not at all
   * when nothing was pending: one timer fires at most once, and nothing
   * re-arms it.
   */
  lemma {:induction false} AtMostOnceWithoutReset(t: Timer, es: seq<Event>)
    requires NoReset(es)
    ensures |Run(t, es).1| <= (if t.deadline.Some? then 1 else 0)
    ensures t.deadline.None? ==> Run(t, es).0.deadline.None?
    decreases |es|
  {
    if es != [] {
      var t1 := Apply(t, es[0]).0;
      assert NoReset(es[1..]) by {
        forall k | 0 <= k < |es[1..]| ensures !es[1..][k].ResetAt? {
          assert es[1..][k] == es[k + 1];
        }
      }
      AtMostOnceWithoutReset(t1, es[1..]);
      assert Apply(t, es[0]).1.Some? ==> t1.deadline.None?;
      assert t.deadline.None? ==> t1.deadline.None?;
    }
  }

  /** After teardown, no further callback is invoked and nothing is pending, whatever renders and ticks follow. */
  lemma NothingAfterTeardown(t: Timer, es: seq<Event>)
    requires NoReset(es)
    ensures Run(Apply(t, Teardown).0, es).1 == []
    ensures Run(Apply(t, Teardown).0, es).0.deadline.None?
  {
    AtMostOnceWithoutReset(Apply(t, Teardown).0, es);
  }

  /**
   * A pending timer that comes due after any number of renders invokes the
   * callback of the latest render, exactly once.
   */
  lemma {:induction false} LatestCallbackFires(t: Timer, es: seq<Event>, now: int)
    requires forall k :: 0 <= k < |es| ==> es[k].Render?
    requires t.deadline.Some? && t.deadline.value <= now
    ensures Run(t, es + [TickAt(now)]).1 == [Latest(t.onSleep, es)]
    ensures Run(t, es + [TickAt(now)]).0.deadline.None?
    decreases |es|
  {
    if es == [] {
      assert [TickAt(now)][1..] == [];
      assert Run(t, [TickAt(now)]).1 == [t.onSleep] + [];
    } else {
      var t1 := t.(onSleep := es[0].callback);
      var xs := es + [TickAt(now)];
      assert xs[0] == es[0] && xs[1..] == es[1..] + [TickAt(now)];
      assert Apply(t, xs[0]) == (t1, None);
      assert Run(t, xs).1 == [] + Run(t1, xs[1..]).1;
      LatestCallbackFires(t1, es[1..], now);
      LatestOfTail(t.onSleep, es);
    }
  }

  /** The latest render after a first render `es[0]` is the latest render of the rest, starting from `es[0]`'s callback. */
  lemma {:induction false} LatestOfTail(cb: nat, es: seq<Event>)
    requires |es| > 0 && es[0].Render?
    ensures Latest(cb, es) == Latest(es[0].callback, es[1..])
    decreases |es|
  {
    if |es| > 1 && !es[|es| - 1].Render? {
      assert es[..|es| - 1][1..] == es[1..][..|es[1..]| - 1];
      LatestOfTail(cb, es[..|es| - 1]);
    }
  }

  /**
   * The hook as an object: `timerRef` is the pending deadline and
   * `onSleepRef` the callback, both overwritten in place.
   */
  class AutoSleepTimer {
    const timeout: nat
    var deadline: Option<int>
    var onSleep: nat

    function Model(): Timer
      reads this
    {
      Timer(timeout, deadline, onSleep)
    }

    /** The first render stores the callback; the mount effect arms the timer. */
    constructor(timeoutMs: nat, callback: nat, now: int)
      ensures Model() == Mount(timeoutMs, callback, now)
    {
      timeout := timeoutMs;
      onSleep := callback;
      deadline := None;
      new;
      ResetTimer(now);
    }

    /** Every render overwrites `onSleepRef` with the current callback. */
    method Rerender(callback: nat)
      modifies this
      ensures Model() == Apply(old(Model()), Render(callback)).0
    {
      onSleep := callback;
    }

    /** `resetTimer`: clear the pending timer, then arm a new one. */
    method ResetTimer(now: int)
      modifies this
      ensures Model() == Reset(old(Model()), now)
    {
      if deadline.Some? {
        deadline := None;
      }
      deadline := Some(now + timeout);
    }

    /** The clock reaches `now`; `called` is the callback the due timer invoked, if any. */
    method Tick(now: int) returns (called: Option<nat>)
      modifies this
      ensures (Model(), called) == Fire(old(Model()), now)
    {
      called := None;
      if deadline.Some? && deadline.value <= now {
        deadline := None;
        called := Some(onSleep);
      }
    }

    /** The unmount cleanup clears the pending timer. */
    method Teardown()
      modifies this
      ensures Model() == Apply(old(Model()), Event.Teardown).0
    {
      if deadline.Some? {
        deadline := None;
      }
    }
  }
}
