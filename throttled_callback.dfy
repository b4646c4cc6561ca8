/** The `useThrottledCallback(callback, delay)` hook: a trailing-edge throttle.
    A call runs the callback at once when `delay` ms have passed since the last
    run; otherwise it replaces the one pending `setTimeout` by a new one that
    carries the latest arguments and is due when the window closes. */
module ThrottledCallback {

  /** A deferred call armed with `setTimeout`: its timer handle, the time it is
      due and the arguments it will pass to the callback. */
  datatype Deferred<A> = Deferred(handle: nat, due: int, args: A)

  /** One run of the wrapped callback: when it ran and with which arguments. */
  datatype Invocation<A> = Invocation(at: int, args: A)

  /** The hook's refs (`lastCallTime`, the timer in `timeoutRef`), the host's
      next timer handle and the log of callback runs. `timers` is the host's
      queue of this hook's timers that have not fired yet. */
  datatype State<A> = State(lastCallTime: int, timers: seq<Deferred<A>>, nextHandle: nat, calls: seq<Invocation<A>>)

  /** `useRef(0)` and `useRef(null)`: nothing ran, nothing pending. */
  function Init<A>(): State<A> {
    State(0, [], 1, [])
  }

  /** The throttled function called at time `now` with `args`. */
  function Call<A>(s: State<A>, delay: int, now: int, args: A): (r: State<A>)
    ensures (|r.calls| == |s.calls| + 1) == (now - s.lastCallTime >= delay)
    ensures now - s.lastCallTime >= delay ==>
      r.lastCallTime == now && r.calls[|s.calls|] == Invocation(now, args) && r.timers == s.timers
    ensures now - s.lastCallTime < delay ==>
      r.lastCallTime == s.lastCallTime && r.calls == s.calls &&
      |r.timers| == 1 && r.timers[0].args == args &&
      r.timers[0].due == s.lastCallTime + delay && r.timers[0].due > now &&
      r.timers[0].handle == s.nextHandle
    ensures r.calls[..|s.calls|] == s.calls
  {
    var timeSinceLastCall := now - s.lastCallTime;
    if timeSinceLastCall >= delay then
      s.(lastCallTime := now, calls := s.calls + [Invocation(now, args)])
    else
      // clearTimeout(timeoutRef.current); timeoutRef.current = setTimeout(..., delay - timeSinceLastCall)
      s.(timers := [Deferred(s.nextHandle, now + (delay - timeSinceLastCall), args)],
         nextHandle := s.nextHandle + 1)
  }

  /** The host runs the pending timer at time `now` once it is due: the timer
      callback stamps `lastCallTime` with the firing time, then runs the
      callback with the arguments it captured. Nothing happens otherwise. */
  function Fire<A>(s: State<A>, now: int): (r: State<A>)
    ensures s.timers != [] && s.timers[0].due <= now ==>
      r.lastCallTime == now && r.calls == s.calls + [Invocation(now, s.timers[0].args)] &&
      |r.timers| == |s.timers| - 1
    ensures !(s.timers != [] && s.timers[0].due <= now) ==> r == s
  {
    if s.timers != [] && s.timers[0].due <= now then
      s.(lastCallTime := now, calls := s.calls + [Invocation(now, s.timers[0].args)], timers := s.timers[1..])
    else
      s
  }

  /** What reaches the hook: a call of the throttled function or the host's timer tick. */
  datatype Event<A> = CallAt(now: int, args: A) | TimerAt(now: int)

  function Step<A>(s: State<A>, delay: int, e: Event<A>): State<A> {
    match e
    case CallAt(now, args) => Call(s, delay, now, args)
    case TimerAt(now) => Fire(s, now)
  }

  function Run<A>(s: State<A>, delay: int, evs: seq<Event<A>>): State<A>
    decreases |evs|
  {
    if evs == [] then s else Run(Step(s, delay, evs[0]), delay, evs[1..])
  }

  /** However calls and timer ticks interleave, at most one deferred call is ever pending. */
  lemma {:induction false} AtMostOnePending<A>(s: State<A>, delay: int, evs: seq<Event<A>>)
    requires |s.timers| <= 1
    ensures |Run(s, delay, evs).timers| <= 1
    decreases |evs|
  {
    if evs != [] {
      AtMostOnePending(Step(s, delay, evs[0]), delay, evs[1..]);
    }
  }

  /** The callback never runs except through a call or a due timer: along any
      trace the log of runs only grows, and by at most one entry per event. */
  lemma {:induction false} RunsAtMostOncePerEvent<A>(s: State<A>, delay: int, evs: seq<Event<A>>)
    ensures var r := Run(s, delay, evs);
      |s.calls| <= |r.calls| <= |s.calls| + |evs| && r.calls[..|s.calls|] == s.calls
    decreases |evs|
  {
    if evs != [] {
      var t := Step(s, delay, evs[0]);
      RunsAtMostOncePerEvent(t, delay, evs[1..]);
      var r := Run(t, delay, evs[1..]);
      assert r.calls[..|s.calls|] == r.calls[..|t.calls|][..|s.calls|];
    }
  }

  /** `lastCallTime` starts at 0, so the first call at any time `now >= delay` runs at once. */
  lemma FirstCallImmediate<A>(delay: int, now: int, args: A)
    requires now >= delay
    ensures Call(Init(), delay, now, args).calls == [Invocation(now, args)]
  {
  }

  /** A call that runs at once leaves an already-armed deferred call armed. */
  lemma ImmediateKeepsPending<A>(s: State<A>, delay: int, now: int, args: A)
    requires s.timers != [] && now - s.lastCallTime >= delay
    ensures Call(s, delay, now, args).timers == s.timers
  {
  }

  /** Two suppressed calls in a row: only the second one's arguments stay pending. */
  lemma LatestArgumentsWin<A>(s: State<A>, delay: int, t1: int, a1: A, t2: int, a2: A)
    requires t1 - s.lastCallTime < delay && t2 - s.lastCallTime < delay
    ensures var r := Call(Call(s, delay, t1, a1), delay, t2, a2);
      |r.timers| == 1 && r.timers[0].args == a2 && r.calls == s.calls
  {
  }

  /** Because the immediate path does not clear the pending timer, an older
      suppressed call can run after a newer immediate one: with `delay` 100, a
      call at 50 with 1 is deferred to 100, a call at 100 with 2 runs at once,
      and then the timer runs the callback again with the stale 1. */
  lemma StaleTrailingCall()
    ensures Run(Init(), 100, [CallAt(50, 1), CallAt(100, 2), TimerAt(100)]).calls
         == [Invocation(100, 2), Invocation(100, 1)]
  {
  }

  /** The hook instance: its refs as fields, updated in place. */
  class Throttle<A> {
    const delay: int
    var lastCallTime: int
    var timers: seq<Deferred<A>>
    var nextHandle: nat
    var calls: seq<Invocation<A>>

    function Snapshot(): State<A>
      reads this
    {
      State(lastCallTime, timers, nextHandle, calls)
    }

    constructor (delay: int)
      ensures this.delay == delay && Snapshot() == Init()
    {
      this.delay := delay;
      lastCallTime, timers, nextHandle, calls := 0, [], 1, [];
    }

    /** The returned throttled callback, called at `now` with `args`. */
    method Invoke(now: int, args: A)
      modifies this
      ensures Snapshot() == Call(old(Snapshot()), delay, now, args)
    {
      var timeSinceLastCall := now - lastCallTime;
      if timeSinceLastCall >= delay {
        lastCallTime := now;
        calls := calls + [Invocation(now, args)];
      } else {
        timers := [Deferred(nextHandle, now + (delay - timeSinceLastCall), args)];
        nextHandle := nextHandle + 1;
      }
    }

    /** The host's timer tick at `now`. */
    method TimerTick(now: int)
      modifies this
      ensures Snapshot() == Fire(old(Snapshot()), now)
    {
      if timers != [] && timers[0].due <= now {
        lastCallTime := now;
        calls := calls + [Invocation(now, timers[0].args)];
        timers := timers[1..];
      }
    }
  }
}
