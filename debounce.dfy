/**
 * The useDebounce and useThrottle hooks. Time is a logical clock passed to
 * each operation; a pending `setTimeout` is its due time. Callbacks and
 * argument lists are named by identities.
 */
module Debounce {
  import opened Wrappers

  /** One call of the wrapped callback: which callback, with which arguments. */
  datatype Invocation = Invocation(callback: nat, args: nat)

  // ---------------------------------------------------------------------------
  // useDebounce: a trailing debounce with one pending slot

  /** The timer held in `timeoutRef`: when it is due and the arguments its closure captured. */
  datatype Pending = Pending(due: int, args: nat)

  /** The hook's state: its delay, the pending timer if any, and `callbackRef`. */
  datatype Debouncer = Debouncer(delay: nat, pending: Option<Pending>, callback: nat)

  /** A render, a call of the debounced function, or the clock reaching `now`. */
  datatype Event = Render(cb: nat) | CallAt(args: nat, now: int) | TickAt(now: int)

  /** A call cancels whatever is pending and schedules one invocation with its own arguments, `delay` later. */
  function Call(d: Debouncer, args: nat, now: int): (r: Debouncer)
    ensures r.pending.Some? && r.pending.value.args == args && r.pending.value.due - now == d.delay
    ensures r.delay == d.delay && r.callback == d.callback
  {
    d.(pending := Some(Pending(now + d.delay, args)))
  }

  /**
   * The clock reaches `now`: a due timer invokes the callback `callbackRef`
   * holds at that moment, with the captured arguments, and nothing is pending
   * afterwards.
   */
  function Fire(d: Debouncer, now: int): (r: (Debouncer, Option<Invocation>))
    ensures r.1.Some? <==> d.pending.Some? && d.pending.value.due <= now
    ensures r.1.Some? ==> r.1.value == Invocation(d.callback, d.pending.value.args) && r.0 == d.(pending := None)
    ensures r.1.None? ==> r.0 == d
  {
    if d.pending.Some? && d.pending.value.due <= now then (d.(pending := None), Some(Invocation(d.callback, d.pending.value.args)))
    else (d, None)
  }

  function Apply(d: Debouncer, e: Event): (Debouncer, Option<Invocation>)
  {
    match e
    case Render(cb) => (d.(callback := cb), None)
    case CallAt(args, now) => (Call(d, args, now), None)
    case TickAt(now) => Fire(d, now)
  }

  /** A sequence of events: the final state and the invocations, in order. */
  function Run(d: Debouncer, es: seq<Event>): (Debouncer, seq<Invocation>)
    decreases |es|
  {
    if es == [] then (d, [])
    else
      var first := Apply(d, es[0]);
      var rest := Run(first.0, es[1..]);
      (rest.0, (if first.1.Some? then [first.1.value] else []) + rest.1)
  }

  /** A burst: calls and renders with no timer expiring in between. */
  predicate Burst(es: seq<Event>)
  {
    forall k :: 0 <= k < |es| ==> !es[k].TickAt?
  }

  /** The callback of the latest render in `es`, or `cb`. */
  function LatestCallback(cb: nat, es: seq<Event>): nat
    decreases |es|
  {
    if es == [] then cb
    else if es[|es| - 1].Render? then es[|es| - 1].cb
    else LatestCallback(cb, es[..|es| - 1])
  }

  /** The timer pending after `es`, starting from `p`: the latest call's. */
  function LatestPending(delay: nat, p: Option<Pending>, es: seq<Event>): Option<Pending>
    decreases |es|
  {
    if es == [] then p
    else if es[|es| - 1].CallAt? then Some(Pending(es[|es| - 1].now + delay, es[|es| - 1].args))
    else LatestPending(delay, p, es[..|es| - 1])
  }

  /** Whatever was pending, a call leaves exactly its own invocation pending. */
  lemma CallReplacesPending(d: Debouncer, e: Debouncer, args: nat, now: int)
    requires d.delay == e.delay && d.callback == e.callback
    ensures Call(d, args, now) == Call(e, args, now)
  {
  }

  /** A burst invokes nothing and leaves pending only the latest call, with the latest callback in place. */
  lemma {:induction false} BurstInvokesNothing(d: Debouncer, es: seq<Event>)
    requires Burst(es)
    ensures Run(d, es).1 == []
    ensures Run(d, es).0 == Debouncer(d.delay, LatestPending(d.delay, d.pending, es), LatestCallback(d.callback, es))
    decreases |es|
  {
    if es != [] {
      var init := es[..|es| - 1];
      var last := es[|es| - 1];
      assert init + [last] == es;
      assert Burst(init) by {
        forall k | 0 <= k < |init| ensures !init[k].TickAt? {
          assert init[k] == es[k];
        }
      }
      BurstInvokesNothing(d, init);
      RunSnoc(d, init, last);
    }
  }

  /** Running one more event runs it on the state the others left. */
  lemma {:induction false} RunSnoc(d: Debouncer, es: seq<Event>, e: Event)
    ensures Run(d, es + [e]).0 == Apply(Run(d, es).0, e).0
    ensures Run(d, es + [e]).1 == Run(d, es).1 + (if Apply(Run(d, es).0, e).1.Some? then [Apply(Run(d, es).0, e).1.value] else [])
    decreases |es|
  {
    if es == [] {
      assert [e][1..] == [];
    } else {
      assert (es + [e])[0] == es[0];
      assert (es + [e])[1..] == es[1..] + [e];
      RunSnoc(Apply(d, es[0]).0, es[1..], e);
    }
  }

  /**
   * After a burst, the first moment at or past the due time of the last
   * call (in the burst or before it) invokes the latest callback once, with the last
   * call's arguments; nothing of the earlier calls is ever delivered.
   */
  lemma BurstDeliversLastCall(d: Debouncer, es: seq<Event>, now: int)
    requires Burst(es)
    requires LatestPending(d.delay, d.pending, es).Some? && LatestPending(d.delay, d.pending, es).value.due <= now
    ensures Run(d, es + [TickAt(now)]).1
         == [Invocation(LatestCallback(d.callback, es), LatestPending(d.delay, d.pending, es).value.args)]
    ensures Run(d, es + [TickAt(now)]).0.pending.None?
  {
    BurstInvokesNothing(d, es);
    RunSnoc(d, es, TickAt(now));
  }

  /** Once a burst contains a call, something is pending after it. */
  lemma {:induction false} LatestPendingSet(delay: nat, p: Option<Pending>, es: seq<Event>)
    requires exists k :: 0 <= k < |es| && es[k].CallAt?
    ensures LatestPending(delay, p, es).Some?
    decreases |es|
  {
    if !es[|es| - 1].CallAt? {
      var k :| 0 <= k < |es| && es[k].CallAt?;
      var init := es[..|es| - 1];
      assert init[k] == es[k];
      LatestPendingSet(delay, p, init);
    }
  }

  /** The debounce hook as an object: `timeoutRef` and `callbackRef` are reassigned in place. */
  class DebouncedFunction {
    const delay: nat
    var pending: Option<Pending>
    var callback: nat

    function Model(): Debouncer
      reads this
    {
      Debouncer(delay, pending, callback)
    }

    constructor(cb: nat, delayMs: nat)
      ensures Model() == Debouncer(delayMs, None, cb)
    {
      delay := delayMs;
      pending := None;
      callback := cb;
    }

    /** Every render overwrites `callbackRef` with the current callback. */
    method Rerender(cb: nat)
      modifies this
      ensures Model() == Apply(old(Model()), Render(cb)).0
    {
      callback := cb;
    }

    /** The debounced function called with `args` at `now`. */
    method Invoke(args: nat, now: int)
      modifies this
      ensures Model() == Call(old(Model()), args, now)
    {
      if pending.Some? {
        pending := None;
      }
      pending := Some(Pending(now + delay, args));
    }

    /** The clock reaches `now`; `invoked` is the call the due timer made, if any. */
    method Tick(now: int) returns (invoked: Option<Invocation>)
      modifies this
      ensures (Model(), invoked) == Fire(old(Model()), now)
    {
      invoked := None;
      if pending.Some? && pending.value.due <= now {
        invoked := Some(Invocation(callback, pending.value.args));
        pending := None;
      }
    }
  }

  // ---------------------------------------------------------------------------
  // useThrottle: a leading-edge throttle on the last accepted call's time

  /** The hook's state: its delay, `lastCallRef` and `callbackRef`. */
  datatype Throttle = Throttle(delay: nat, lastCall: int, callback: nat)

  /** The first render: no call has passed, and `lastCallRef` starts at 0. */
  function NewThrottle(cb: nat, delay: nat): (t: Throttle)
    ensures t.lastCall == 0 && t.delay == delay && t.callback == cb
  {
    Throttle(delay, 0, cb)
  }

  /**
   * The throttled function called with `args` at `now`: it passes when at
   * least `delay` has gone by since the last call that passed, recording
   * `now` and invoking the current callback once; otherwise nothing changes.
   */
  function ThrottledCall(t: Throttle, args: nat, now: int): (r: (Throttle, Option<Invocation>))
    ensures r.1.Some? <==> now - t.lastCall >= t.delay
    ensures r.1.Some? ==> r.0 == t.(lastCall := now) && r.1.value == Invocation(t.callback, args)
    ensures r.1.None? ==> r.0 == t
  {
    if now - t.lastCall >= t.delay then (t.(lastCall := now), Some(Invocation(t.callback, args)))
    else (t, None)
  }

  /** The very first call passes exactly when the clock has reached `delay`. */
  lemma FirstCallPasses(cb: nat, delay: nat, args: nat, now: int)
    ensures ThrottledCall(NewThrottle(cb, delay), args, now).1.Some? <==> now >= delay
  {
  }

  /** A sequence of calls `(args, now)`: the final state and the times of the calls that passed. */
  function ThrottleRun(t: Throttle, calls: seq<(nat, int)>): (Throttle, seq<int>)
    decreases |calls|
  {
    if calls == [] then (t, [])
    else
      var first := ThrottledCall(t, calls[0].0, calls[0].1);
      var rest := ThrottleRun(first.0, calls[1..]);
      (rest.0, (if first.1.Some? then [calls[0].1] else []) + rest.1)
  }

  /** Each time in `ts` is at least `delay` after the one before it, and the first at least `delay` after `from`. */
  predicate Spaced(from: int, delay: nat, ts: seq<int>)
  {
    (|ts| > 0 ==> ts[0] - from >= delay)
    && forall k :: 0 < k < |ts| ==> ts[k] - ts[k - 1] >= delay
  }

  /**
   * Whatever the call times, the calls that pass are at least `delay` apart,
   * and the last one that passed is what `lastCallRef` holds.
   */
  lemma {:induction false} ThrottleSpacing(t: Throttle, calls: seq<(nat, int)>)
    ensures Spaced(t.lastCall, t.delay, ThrottleRun(t, calls).1)
    ensures ThrottleRun(t, calls).0.delay == t.delay
    ensures ThrottleRun(t, calls).0.lastCall
         == (var ts := ThrottleRun(t, calls).1; if ts == [] then t.lastCall else ts[|ts| - 1])
    decreases |calls|
  {
    if calls != [] {
      var first := ThrottledCall(t, calls[0].0, calls[0].1);
      ThrottleSpacing(first.0, calls[1..]);
      var rest := ThrottleRun(first.0, calls[1..]).1;
      if first.1.Some? {
        var ts := [calls[0].1] + rest;
        forall k | 0 < k < |ts| ensures ts[k] - ts[k - 1] >= t.delay {
          if k > 1 {
            assert ts[k] == rest[k - 1] && ts[k - 1] == rest[k - 2];
          }
        }
      } else {
        assert [] + rest == rest;
      }
    }
  }

  /** The throttle hook as an object: `lastCallRef` and `callbackRef` are overwritten in place. */
  class ThrottledFunction {
    const delay: nat
    var lastCall: int
    var callback: nat

    function Model(): Throttle
      reads this
    {
      Throttle(delay, lastCall, callback)
    }

    constructor(cb: nat, delayMs: nat)
      ensures Model() == NewThrottle(cb, delayMs)
    {
      delay := delayMs;
      lastCall := 0;
      callback := cb;
    }

    /** Every render overwrites `callbackRef` with the current callback. */
    method Rerender(cb: nat)
      modifies this
      ensures Model() == old(Model()).(callback := cb)
    {
      callback := cb;
    }

    /** The throttled function called with `args` at `now`; `invoked` is the callback's call, if it passed. */
    method Invoke(args: nat, now: int) returns (invoked: Option<Invocation>)
      modifies this
      ensures (Model(), invoked) == ThrottledCall(old(Model()), args, now)
    {
      invoked := None;
      if now - lastCall >= delay {
        lastCall := now;
        invoked := Some(Invocation(callback, args));
      }
    }
  }
}
