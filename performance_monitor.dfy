/** `PerformanceMonitor`: a per-frame sampler. Each animation frame bumps a
    frame counter; once at least 1000 ms have passed since the window started
    it publishes fps, memory, render time and element count, and starts a new
    window. Also the colour rule of `MetricRow` and the render gate. */
module PerformanceMonitor {
  import opened Common

  /** The length of a sampling window in ms. */
  const WindowMs: int := 1000

  /** Bytes per MB in the memory reading. */
  const BytesPerMB: nat := 1048576

  /** `Math.round(n / d)` for d > 0: the nearest integer, halves rounded up. */
  function RoundRatio(n: int, d: int): (r: int)
    requires d > 0
    ensures 2 * r * d - d <= 2 * n < 2 * r * d + d
  {
    var q := (2 * n + d) / (2 * d);
    DivBounds(2 * n + d, 2 * d);
    q
  }

  lemma DivBounds(a: int, b: int)
    requires b > 0
    ensures b * (a / b) <= a < b * (a / b) + b
  {
  }

  /** `Math.round(x * 100) / 100`: x to two decimals, off by at most 0.005. */
  function RoundHundredths(x: real): (r: real)
    ensures x - 0.005 < r <= x + 0.005
  {
    ((x * 100.0 + 0.5).Floor as real) / 100.0
  }

  /** The published snapshot. */
  datatype Metrics = Metrics(fps: int, memory: int, renderTime: real, componentCount: nat)

  /** `metrics` and `visible` state, the `frameCount`, `lastTime` and
      `renderStartTime` refs, the host's queue of requested frames, the
      `animationFrame` handle the live effect run's cleanup will cancel (none
      when no run with a cleanup is live), and the host's next frame handle. */
  datatype State = State(metrics: Metrics, visible: bool, frameCount: nat, lastTime: int,
                         renderStartTime: int, frames: seq<nat>, animationFrame: Option<nat>,
                         nextHandle: nat)

  /** The first render at time `t0` (`useRef(performance.now())`), with
      `visible` starting as `enabled`. */
  function Init(enabled: bool, t0: int): State {
    State(Metrics(0, 0, 0.0, 0), enabled, 0, t0, 0, [], None, 1)
  }

  /** `performance.memory ? Math.round(usedJSHeapSize / 1048576) : 0`. */
  function MemoryMB(heap: Option<nat>): (r: int)
    ensures heap.None? ==> r == 0
    ensures heap.Some? ==> 2 * r * BytesPerMB - BytesPerMB <= 2 * heap.value < 2 * r * BytesPerMB + BytesPerMB
  {
    if heap.Some? then RoundRatio(heap.value, BytesPerMB) else 0
  }

  /** `updateMetrics` at time `now`; `heap` is what `performance.memory`
      exposes and `elements` what `document.querySelectorAll` counts. It
      ends by requesting one more frame, which cancels none. */
  function Sample(s: State, now: int, heap: Option<nat>, elements: nat): (r: State)
    ensures now - s.lastTime < WindowMs ==>
      r.frameCount == s.frameCount + 1 && r.lastTime == s.lastTime && r.metrics == s.metrics
    ensures now - s.lastTime >= WindowMs ==>
      r.frameCount == 0 && r.lastTime == now &&
      r.metrics == Metrics(RoundRatio((s.frameCount + 1) * 1000, now - s.lastTime), MemoryMB(heap),
                           RoundHundredths((now - s.renderStartTime) as real), elements)
    ensures r.renderStartTime == now && r.visible == s.visible
    ensures r.frames == s.frames + [s.nextHandle] && r.animationFrame == Some(s.nextHandle)
  {
    var count := s.frameCount + 1;
    var s1 :=
      if now - s.lastTime >= WindowMs then
        s.(frameCount := 0, lastTime := now,
           metrics := Metrics(RoundRatio(count * 1000, now - s.lastTime), MemoryMB(heap),
                              RoundHundredths((now - s.renderStartTime) as real), elements))
      else
        s.(frameCount := count);
    s1.(renderStartTime := now, frames := s.frames + [s.nextHandle],
        animationFrame := Some(s.nextHandle), nextHandle := s.nextHandle + 1)
  }

  /** The effect: while not visible it returns at once, with no cleanup;
      otherwise one synchronous `updateMetrics`. */
  function Start(s: State, now: int, heap: Option<nat>, elements: nat): (r: State)
    ensures !s.visible ==> r == s.(animationFrame := None)
    ensures s.visible ==> r == Sample(s, now, heap, elements)
  {
    if !s.visible then s.(animationFrame := None) else Sample(s, now, heap, elements)
  }

  /** The host's display frame at `now`: runs the loop if a frame was requested. */
  function FrameTick(s: State, now: int, heap: Option<nat>, elements: nat): (r: State)
    ensures s.frames == [] ==> r == s
    ensures s.frames != [] ==> r == Sample(s.(frames := s.frames[1..]), now, heap, elements)
    ensures s.frames != [] ==> r.frames == s.frames[1..] + [s.nextHandle]
  {
    if s.frames == [] then s else Sample(s.(frames := s.frames[1..]), now, heap, elements)
  }

  /** `cancelAnimationFrame(handle)`: the request with that handle is dropped. */
  function Cancel(frames: seq<nat>, handle: nat): (r: seq<nat>)
    ensures handle !in r
    ensures forall h :: h in frames && h != handle <==> h in r
  {
    Without(frames, (h: nat) => h, handle)
  }

  /** The effect's cleanup: cancels the frame its own run requested last. */
  function Cleanup(s: State): (r: State)
    ensures r.animationFrame == None && r.metrics == s.metrics && r.visible == s.visible
    ensures s.animationFrame.Some? ==> r.frames == Cancel(s.frames, s.animationFrame.value)
    ensures s.animationFrame.None? ==> r.frames == s.frames
  {
    if s.animationFrame.Some? then s.(frames := Cancel(s.frames, s.animationFrame.value), animationFrame := None)
    else s
  }

  /** The toggle button: `setVisible(!visible)`, after which the effect's
      cleanup runs and the effect runs again for the new value. */
  function ToggleVisible(s: State, now: int, heap: Option<nat>, elements: nat): (r: State)
    ensures r.visible == !s.visible
    ensures r.animationFrame.Some? <==> !s.visible
    ensures s.visible ==> forall h :: h in r.frames <==> h in s.frames && Some(h) != s.animationFrame
    ensures s.visible ==> r == Cleanup(s).(visible := false)
    ensures !s.visible ==> r == Sample(Cleanup(s).(visible := true), now, heap, elements)
  {
    Start(Cleanup(s).(visible := !s.visible), now, heap, elements)
  }

  datatype Event = StartAt(now: int, heap: Option<nat>, elements: nat)
                 | FrameAt(now: int, heap: Option<nat>, elements: nat)
                 | ToggleAt(now: int, heap: Option<nat>, elements: nat)
                 | Unmount

  function Step(s: State, e: Event): State {
    match e
    case StartAt(now, heap, elements) => Start(s, now, heap, elements)
    case FrameAt(now, heap, elements) => FrameTick(s, now, heap, elements)
    case ToggleAt(now, heap, elements) => ToggleVisible(s, now, heap, elements)
    case Unmount => Cleanup(s)
  }

  function Run(s: State, evs: seq<Event>): State
    decreases |evs|
  {
    if evs == [] then s else Run(Step(s, evs[0]), evs[1..])
  }

  /** React runs the effect on its own only at mount, when no frame of this
      component is pending; every later run follows its cleanup (`ToggleAt`). */
  predicate EventOk(s: State, e: Event) {
    e.StartAt? ==> s.frames == []
  }

  predicate Legal(s: State, evs: seq<Event>)
    decreases |evs|
  {
    evs == [] || (EventOk(s, evs[0]) && Legal(Step(s, evs[0]), evs[1..]))
  }

  /** No sampling loop while hidden, at most one pending frame, and that
      frame is the one the live effect run will cancel. */
  ghost predicate LoopInv(s: State) {
    |s.frames| <= 1 && (!s.visible ==> s.frames == []) &&
    (s.frames != [] ==> s.animationFrame == Some(s.frames[0]))
  }

  lemma StepKeepsLoopInv(s: State, e: Event)
    requires LoopInv(s) && EventOk(s, e)
    ensures LoopInv(Step(s, e))
  {
    if s.animationFrame.Some? && s.frames != [] {
      assert s.frames == [s.animationFrame.value];
      assert Cancel(s.frames, s.animationFrame.value) == [];
    }
  }

  lemma {:induction false} LoopOnlyWhileVisible(s: State, evs: seq<Event>)
    requires LoopInv(s) && Legal(s, evs)
    ensures LoopInv(Run(s, evs))
    decreases |evs|
  {
    if evs != [] {
      StepKeepsLoopInv(s, evs[0]);
      LoopOnlyWhileVisible(Step(s, evs[0]), evs[1..]);
    }
  }

  /** The bound rests on that order: an effect run while the previous run's
      frame is still pending would leave two loops running. */
  lemma RerunWithoutCleanupDoublesLoop()
    ensures |Run(Init(true, 0), [StartAt(0, None, 0), StartAt(1, None, 0)]).frames| == 2
    ensures !Legal(Init(true, 0), [StartAt(0, None, 0), StartAt(1, None, 0)])
  {
    var evs := [StartAt(0, None, 0), StartAt(1, None, 0)];
    assert Run(Init(true, 0), evs) == Run(Step(Step(Init(true, 0), evs[0]), evs[1]), []) by {
      assert evs[1..][1..] == [];
    }
  }

  /** Metrics change only when a window closes, and a window lasts at least
      1000 ms: along any trace the window start only moves forward, and each
      move is by at least 1000 ms. */
  lemma {:induction false} WindowsAtLeastOneSecond(s: State, evs: seq<Event>)
    ensures var r := Run(s, evs);
      (r.lastTime == s.lastTime && r.metrics == s.metrics) || r.lastTime >= s.lastTime + WindowMs
    decreases |evs|
  {
    if evs != [] {
      WindowsAtLeastOneSecond(Step(s, evs[0]), evs[1..]);
    }
  }

  /** The published fps never exceeds the frames counted in its window. */
  lemma FpsAtMostFrames(count: nat, elapsed: int)
    requires elapsed >= WindowMs
    ensures RoundRatio(count * 1000, elapsed) <= count
  {
    var r := RoundRatio(count * 1000, elapsed);
    if r > count {
      assert r >= count + 1;
      calc {
        2 * r * elapsed - elapsed;
        == (2 * r - 1) * elapsed;
        >= { MulMono(2 * r - 1, 2 * count + 1, elapsed); } (2 * count + 1) * elapsed;
        >= { MulMono(elapsed, 1000, 2 * count + 1); } (2 * count + 1) * 1000;
        > 2 * (count * 1000);
      }
      assert false;
    }
  }

  lemma MulMono(a: int, b: int, c: int)
    requires a >= b && c >= 0
    ensures a * c >= b * c
  {
  }

  /** 60 frames over exactly 1000 ms give 60 fps. */
  lemma SixtyFramesSixtyFps()
    ensures RoundRatio(60 * 1000, 1000) == 60
  {
  }

  /** `MetricRow`'s value colour: warning '#ff9f40', error '#ff6384',
      otherwise '#4bc0c0'. */
  datatype Colour = Warning | Error | Normal

  /** The warning colour is tested first, so it wins over the error colour. */
  function RowColour(warning: bool, error: bool): (c: Colour)
    ensures c == Error <==> !warning && error
    ensures c == Warning <==> warning
  {
    if warning then Warning else if error then Error else Normal
  }

  /** The FPS row: warning below 50, error below 30. The error threshold
      implies the warning one, so the error colour never shows. */
  function FpsColour(fps: int): (c: Colour)
    ensures c != Error
    ensures c == Warning <==> fps < 50
  {
    RowColour(fps < 50, fps < 30)
  }

  /** The memory row: warning above 50 MB, error above 100 MB; again the
      error colour never shows. */
  function MemoryColour(memory: int): (c: Colour)
    ensures c != Error
    ensures c == Warning <==> memory > 50
  {
    RowColour(memory > 50, memory > 100)
  }

  datatype Row = Row(name: string, colour: Colour)

  /** The rows shown: FPS, memory only when non-zero, render time (warning
      above 16 ms) and element count (warning above 1000). */
  function Rows(m: Metrics): (rows: seq<Row>)
    ensures |rows| == if m.memory > 0 then 4 else 3
    ensures forall i :: 0 <= i < |rows| ==> rows[i].colour != Error
    ensures rows[0] == Row("FPS:", FpsColour(m.fps))
    ensures m.memory > 0 ==> rows[1] == Row("Memory:", MemoryColour(m.memory))
    ensures (exists i :: 0 <= i < |rows| && rows[i].name == "Memory:") <==> m.memory > 0
    ensures rows[|rows| - 2] == Row("Render:", if m.renderTime > 16.0 then Warning else Normal)
    ensures rows[|rows| - 1] == Row("Elements:", if m.componentCount > 1000 then Warning else Normal)
  {
    var tail := [Row("Render:", RowColour(m.renderTime > 16.0, false)),
                 Row("Elements:", RowColour(m.componentCount > 1000, false))];
    if m.memory > 0 then
      var rows := [Row("FPS:", FpsColour(m.fps)), Row("Memory:", MemoryColour(m.memory))] + tail;
      assert rows[1].name == "Memory:";
      rows
    else
      var rows := [Row("FPS:", FpsColour(m.fps))] + tail;
      assert "FPS:"[0] != "Memory:"[0] && "Render:"[0] != "Memory:"[0] && "Elements:"[0] != "Memory:"[0];
      assert forall i :: 0 <= i < |rows| ==> rows[i].name[0] != "Memory:"[0];
      rows
  }

  /** The component renders anything only on 'localhost' or when `enabled`. */
  function Renders(hostname: string, enabled: bool): (r: bool)
    ensures enabled ==> r
    ensures !enabled ==> (r <==> hostname == "localhost")
  {
    hostname == "localhost" || enabled
  }

  /** The component instance: its state values and refs, updated in place. */
  class Monitor {
    var metrics: Metrics
    var visible: bool
    var frameCount: nat
    var lastTime: int
    var renderStartTime: int
    var frames: seq<nat>
    var animationFrame: Option<nat>
    var nextHandle: nat

    function Snapshot(): State
      reads this
    {
      State(metrics, visible, frameCount, lastTime, renderStartTime, frames, animationFrame, nextHandle)
    }

    constructor (enabled: bool, t0: int)
      ensures Snapshot() == Init(enabled, t0)
    {
      metrics, visible, frameCount, lastTime := Metrics(0, 0, 0.0, 0), enabled, 0, t0;
      renderStartTime, frames, animationFrame, nextHandle := 0, [], None, 1;
    }

    method UpdateMetrics(now: int, heap: Option<nat>, elements: nat)
      modifies this
      ensures Snapshot() == Sample(old(Snapshot()), now, heap, elements)
    {
      frameCount := frameCount + 1;
      if now - lastTime >= WindowMs {
        var fps := RoundRatio(frameCount * 1000, now - lastTime);
        frameCount := 0;
        var memory := MemoryMB(heap);
        var renderTime := (now - renderStartTime) as real;
        metrics := Metrics(fps, memory, RoundHundredths(renderTime), elements);
        lastTime := now;
      }
      renderStartTime := now;
      frames := frames + [nextHandle];
      animationFrame := Some(nextHandle);
      nextHandle := nextHandle + 1;
    }

    method StartEffect(now: int, heap: Option<nat>, elements: nat)
      modifies this
      ensures Snapshot() == Start(old(Snapshot()), now, heap, elements)
    {
      if !visible {
        animationFrame := None;
        return;
      }
      UpdateMetrics(now, heap, elements);
    }

    method AnimationFrame(now: int, heap: Option<nat>, elements: nat)
      modifies this
      ensures Snapshot() == FrameTick(old(Snapshot()), now, heap, elements)
    {
      if frames != [] {
        frames := frames[1..];
        UpdateMetrics(now, heap, elements);
      }
    }

    method CleanupEffect()
      modifies this
      ensures Snapshot() == Cleanup(old(Snapshot()))
    {
      if animationFrame.Some? {
        frames := Cancel(frames, animationFrame.value);
        animationFrame := None;
      }
    }

    method ToggleVisibility(now: int, heap: Option<nat>, elements: nat)
      modifies this
      ensures Snapshot() == ToggleVisible(old(Snapshot()), now, heap, elements)
    {
      CleanupEffect();
      visible := !visible;
      StartEffect(now, heap, elements);
    }
  }
}
