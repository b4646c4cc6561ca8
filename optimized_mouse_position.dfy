/** The `useOptimizedMousePosition(throttleMs = 16)` hook: the pointer position
    sampled from `mousemove` events, committed at once when `throttleMs` ms have
    passed since the last commit, and otherwise through one animation-frame
    request that is cancelled and re-requested on every suppressed event. */
module OptimizedMousePosition {
  import opened Common

  /** The default throttle window in ms. */
  const DefaultThrottleMs: int := 16

  /** A pending `requestAnimationFrame`: its handle and the client coordinates
      of the event it will commit. */
  datatype Frame = Frame(handle: nat, target: Point)

  /** Options of the registered `mousemove` listener. */
  datatype ListenerOptions = ListenerOptions(passive: bool)

  /** `position` state, `lastTimeRef`, the pending frames of this hook in the
      host's frame queue, the host's next frame handle, and the window listener. */
  datatype State = State(position: Point, lastTime: int, frames: seq<Frame>, nextHandle: nat,
                         listener: Option<ListenerOptions>)

  function Init(): State {
    State(Point(0.0, 0.0), 0, [], 1, None)
  }

  /** The effect: `addEventListener('mousemove', updatePosition, { passive: true })`. */
  function Subscribe(s: State): (r: State)
    ensures r.listener == Some(ListenerOptions(true))
    ensures r.position == s.position && r.frames == s.frames && r.lastTime == s.lastTime
  {
    s.(listener := Some(ListenerOptions(true)))
  }

  /** `updatePosition` for a `mousemove` at `now` with client coordinates `client`.
      An event reaches the hook only while its listener is registered. */
  function Move(s: State, throttleMs: int, now: int, client: Point): (r: State)
    ensures s.listener.None? ==> r == s
    ensures s.listener.Some? && now - s.lastTime >= throttleMs ==>
      r.position == client && r.lastTime == now && r.frames == s.frames
    ensures s.listener.Some? && now - s.lastTime < throttleMs ==>
      r.position == s.position && r.lastTime == s.lastTime &&
      r.frames == [Frame(s.nextHandle, client)]
    ensures r.listener == s.listener
  {
    if s.listener.None? then s
    else if now - s.lastTime >= throttleMs then
      s.(position := client, lastTime := now)
    else
      // cancelAnimationFrame(animationFrameRef.current); requestAnimationFrame(...)
      s.(frames := [Frame(s.nextHandle, client)], nextHandle := s.nextHandle + 1)
  }

  /** The host's next display frame at `now`: the pending frame commits the
      coordinates it captured and stamps the commit time. */
  function Flush(s: State, now: int): (r: State)
    ensures s.frames != [] ==>
      r.position == s.frames[0].target && r.lastTime == now && r.frames == s.frames[1..]
    ensures s.frames == [] ==> r == s
  {
    if s.frames == [] then s
    else s.(position := s.frames[0].target, lastTime := now, frames := s.frames[1..])
  }

  /** The effect's cleanup: `removeEventListener` and `cancelAnimationFrame`. */
  function Unsubscribe(s: State): (r: State)
    ensures r.listener.None? && r.frames == []
    ensures r.position == s.position && r.lastTime == s.lastTime
  {
    s.(listener := None, frames := [])
  }

  datatype Event = Mount | MoveAt(now: int, client: Point) | FrameAt(now: int) | Unmount

  function Step(s: State, throttleMs: int, e: Event): State {
    match e
    case Mount => Subscribe(s)
    case MoveAt(now, client) => Move(s, throttleMs, now, client)
    case FrameAt(now) => Flush(s, now)
    case Unmount => Unsubscribe(s)
  }

  function Run(s: State, throttleMs: int, evs: seq<Event>): State
    decreases |evs|
  {
    if evs == [] then s else Run(Step(s, throttleMs, evs[0]), throttleMs, evs[1..])
  }

  /** At most one deferred commit is ever pending: a new request replaces the old one. */
  lemma {:induction false} AtMostOneFrame(s: State, throttleMs: int, evs: seq<Event>)
    requires |s.frames| <= 1
    ensures |Run(s, throttleMs, evs).frames| <= 1
    decreases |evs|
  {
    if evs != [] {
      AtMostOneFrame(Step(s, throttleMs, evs[0]), throttleMs, evs[1..]);
    }
  }

  /** The client coordinates carried by the trace's `mousemove` events. */
  function MovePoints(evs: seq<Event>): set<Point>
    decreases |evs|
  {
    if evs == [] then {}
    else (if evs[0].MoveAt? then {evs[0].client} else {}) + MovePoints(evs[1..])
  }

  /** The committed position is never invented: if the position and the
      pending frame's target are among `known`, then after any trace the
      position is among `known` or the coordinates of one of its events. */
  lemma {:induction false} PositionFromEvents(s: State, throttleMs: int, evs: seq<Event>, known: set<Point>)
    requires s.position in known && forall f :: f in s.frames ==> f.target in known
    ensures Run(s, throttleMs, evs).position in known + MovePoints(evs)
    decreases |evs|
  {
    if evs != [] {
      var t := Step(s, throttleMs, evs[0]);
      var here := if evs[0].MoveAt? then {evs[0].client} else {};
      PositionFromEvents(t, throttleMs, evs[1..], known + here);
    }
  }

  /** From the initial state: the position is (0,0) or some event's coordinates. */
  lemma PositionIsOriginOrEvent(throttleMs: int, evs: seq<Event>)
    ensures Run(Init(), throttleMs, evs).position in {Point(0.0, 0.0)} + MovePoints(evs)
  {
    PositionFromEvents(Init(), throttleMs, evs, {Point(0.0, 0.0)});
  }

  /** After teardown no `mousemove` and no frame changes the position any more
      (until the listener is registered again). */
  lemma {:induction false} QuietAfterTeardown(s: State, throttleMs: int, evs: seq<Event>)
    requires forall i :: 0 <= i < |evs| ==> !evs[i].Mount?
    ensures Run(Unsubscribe(s), throttleMs, evs).position == s.position
    decreases |evs|
  {
    if evs != [] {
      var t := Step(Unsubscribe(s), throttleMs, evs[0]);
      assert t == Unsubscribe(s);
      QuietAfterTeardown(s, throttleMs, evs[1..]);
    }
  }

  /** Teardown is idempotent. */
  lemma TeardownIdempotent(s: State)
    ensures Unsubscribe(Unsubscribe(s)) == Unsubscribe(s)
  {
  }

  /** A frame requested by a suppressed event survives a later event that
      commits at once, and then overwrites that newer position with the older
      one: with the default 16 ms window, an event at 5 ms at (1,1) is
      deferred, an event at 16 ms at (2,2) commits, and the frame at 21 ms
      puts the position back to (1,1). */
  lemma StaleFrameOverwrites()
    ensures Run(Init(), DefaultThrottleMs,
                [Mount, MoveAt(5, Point(1.0, 1.0)), MoveAt(16, Point(2.0, 2.0)), FrameAt(21)]).position
         == Point(1.0, 1.0)
  {
  }

  /** The hook instance: `position` state and the two refs, updated in place. */
  class MousePosition {
    const throttleMs: int
    var position: Point
    var lastTime: int
    var frames: seq<Frame>
    var nextHandle: nat
    var listener: Option<ListenerOptions>

    function Snapshot(): State
      reads this
    {
      State(position, lastTime, frames, nextHandle, listener)
    }

    constructor (throttleMs: int)
      ensures this.throttleMs == throttleMs && Snapshot() == Init()
    {
      this.throttleMs := throttleMs;
      position, lastTime, frames, nextHandle, listener := Point(0.0, 0.0), 0, [], 1, None;
    }

    method Mount()
      modifies this
      ensures Snapshot() == Subscribe(old(Snapshot()))
    {
      listener := Some(ListenerOptions(true));
    }

    method UpdatePosition(now: int, client: Point)
      modifies this
      ensures Snapshot() == Move(old(Snapshot()), throttleMs, now, client)
    {
      if listener.None? {
        return;
      }
      if now - lastTime >= throttleMs {
        position := client;
        lastTime := now;
      } else {
        frames := [Frame(nextHandle, client)];
        nextHandle := nextHandle + 1;
      }
    }

    method AnimationFrame(now: int)
      modifies this
      ensures Snapshot() == Flush(old(Snapshot()), now)
    {
      if frames != [] {
        position := frames[0].target;
        lastTime := now;
        frames := frames[1..];
      }
    }

    method Unmount()
      modifies this
      ensures Snapshot() == Unsubscribe(old(Snapshot()))
    {
      listener := None;
      frames := [];
    }
  }
}
