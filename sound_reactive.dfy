/** `SoundReactive`: an audio-bar visualiser. The START/STOP button toggles
    `isPlaying`; starting draws one random beat (80 bars up to 150 in chaos
    mode, 50 bars up to 100 otherwise); analyser bytes are normalised to
    percentages; each bar's height and hue are computed from its value. */
module SoundReactive {
  import opened Common

  /** One byte of analyser frequency data. */
  newtype Byte = x: int | 0 <= x < 256

  /** `barCount`: the number of bars a beat has. */
  function BarCount(chaosMode: bool): nat {
    if chaosMode then 80 else 50
  }

  /** The exclusive upper bound of a random bar value. */
  function BeatScale(chaosMode: bool): real {
    if chaosMode then 150.0 else 100.0
  }

  /** `generateRandomBeat`: one `Math.random() * scale` per bar. */
  function RandomBeat(chaosMode: bool, draws: seq<real>): (data: seq<real>)
    requires |draws| == BarCount(chaosMode) && forall i :: 0 <= i < |draws| ==> IsDraw(draws[i])
    ensures |data| == BarCount(chaosMode)
    ensures forall i :: 0 <= i < |data| ==> 0.0 <= data[i] < BeatScale(chaosMode)
  {
    seq(|draws|, i requires 0 <= i < |draws| => Scale(draws[i], BeatScale(chaosMode)))
  }

  /** The number of analyser bins kept. */
  const KeptBins: nat := 50

  /** The analyser bytes as percentages: the first 50 bins, each `v / 255 * 100`. */
  function Normalise(bytes: seq<Byte>): (data: seq<real>)
    ensures |data| == if |bytes| < KeptBins then |bytes| else KeptBins
    ensures forall i :: 0 <= i < |data| ==> 0.0 <= data[i] <= 100.0
    ensures forall i :: 0 <= i < |data| ==> (data[i] == 0.0 <==> bytes[i] == 0)
    ensures forall i :: 0 <= i < |data| ==> (data[i] == 100.0 <==> bytes[i] == 255)
    ensures forall i, j :: 0 <= i < |data| && 0 <= j < |data| && bytes[i] <= bytes[j] ==> data[i] <= data[j]
  {
    var kept := if |bytes| < KeptBins then bytes else bytes[..KeptBins];
    seq(|kept|, i requires 0 <= i < |kept| => kept[i] as real / 255.0 * 100.0)
  }

  /** The bar's height in px: `Math.max(10, value * 3)` in chaos mode,
      `Math.max(10, value * 2)` otherwise. */
  function BarHeight(value: real, chaosMode: bool): (h: real)
    ensures h >= 10.0
    ensures h >= value * (if chaosMode then 3.0 else 2.0)
    ensures h == 10.0 || h == value * (if chaosMode then 3.0 else 2.0)
  {
    var scaled := value * (if chaosMode then 3.0 else 2.0);
    if 10.0 > scaled then 10.0 else scaled
  }

  /** Louder bars are never shorter. */
  lemma BarHeightMonotone(v1: real, v2: real, chaosMode: bool)
    requires v1 <= v2
    ensures BarHeight(v1, chaosMode) <= BarHeight(v2, chaosMode)
  {
  }

  /** JavaScript's `%` on numbers: the remainder of division truncated
      toward zero, so it takes the sign of the dividend. */
  function JsRem(x: real, m: real): (r: real)
    requires m > 0.0
    ensures x >= 0.0 ==> 0.0 <= r < m
    ensures x < 0.0 ==> -m < r <= 0.0
    ensures exists k: int :: x == r + Multiple(m, k)
  {
    if x >= 0.0 then
      var q := (x / m).Floor;
      FloorBounds(x, m);
      assert x == (x - m * q as real) + Multiple(m, q);
      x - m * q as real
    else
      var q := ((-x) / m).Floor;
      FloorBounds(-x, m);
      assert x == (x + m * q as real) + Multiple(m, -q);
      x + m * q as real
  }

  /** `k` times `m`. */
  function Multiple(m: real, k: int): real {
    m * k as real
  }

  lemma FloorBounds(x: real, m: real)
    requires m > 0.0 && x >= 0.0
    ensures m * (x / m).Floor as real <= x < m * (x / m).Floor as real + m
  {
    var y := x / m;
    var q := y.Floor as real;
    assert m * y == x;
    ScaleLess(m, q, y, false);
    ScaleLess(m, y, q + 1.0, true);
  }

  lemma ScaleLess(m: real, a: real, b: real, strict: bool)
    requires m > 0.0
    requires if strict then a < b else a <= b
    ensures if strict then m * a < m * b else m * a <= m * b
    ensures m * (a + 1.0) == m * a + m
  {
  }

  /** The bar's hue: `(value * 3 + index * 7) % 360`. */
  function BarHue(value: real, index: nat): (hue: real)
    ensures value >= 0.0 ==> 0.0 <= hue < 360.0
    ensures exists k: int :: value * 3.0 + index as real * 7.0 == hue + Multiple(360.0, k)
  {
    JsRem(value * 3.0 + index as real * 7.0, 360.0)
  }

  /** A negative value would give a negative hue: the bound needs the
      values to be non-negative, which every source of data guarantees. */
  lemma NegativeValueNegativeHue()
    ensures BarHue(-1.0, 0) == -3.0
  {
    assert ((3.0) / 360.0).Floor == 0;
  }

  /** One bar as rendered. */
  datatype Bar = Bar(height: real, hue: real)

  /** The visualiser's bars, one per value. */
  function Bars(data: seq<real>, chaosMode: bool): (bars: seq<Bar>)
    ensures |bars| == |data|
    ensures forall i :: 0 <= i < |bars| ==> bars[i] == Bar(BarHeight(data[i], chaosMode), BarHue(data[i], i))
    ensures forall i :: 0 <= i < |bars| ==> bars[i].height >= 10.0
    ensures forall i :: 0 <= i < |bars| ==> data[i] >= 0.0 ==> 0.0 <= bars[i].hue < 360.0
  {
    seq(|data|, i requires 0 <= i < |data| => Bar(BarHeight(data[i], chaosMode), BarHue(data[i], i)))
  }

  /** `isPlaying` and `audioData` state, `animationRef.current`, the host's
      pending frames of this component, the `audioContext` state (an id) and
      whether that context has been closed. */
  datatype State = State(isPlaying: bool, audioData: seq<real>, animationRef: Option<nat>,
                         frames: set<nat>, audioContext: Option<nat>, closed: bool)

  /** The first render: not playing, all bars zero. */
  function Init(chaosMode: bool): (s: State)
    ensures !s.isPlaying && |s.audioData| == BarCount(chaosMode)
    ensures forall i :: 0 <= i < |s.audioData| ==> s.audioData[i] == 0.0
  {
    State(false, seq(BarCount(chaosMode), _ => 0.0), None, {}, None, false)
  }

  /** `startVisualization`. Stopping cancels the pending frame, if any, and
      draws nothing. Starting sets `isPlaying` and runs `animate` once: it
      draws one beat, and its re-request is guarded by the `isPlaying` that
      `startVisualization` captured, which was false, so no frame is requested. */
  function StartStop(s: State, chaosMode: bool, draws: seq<real>): (r: State)
    requires |draws| == BarCount(chaosMode) && forall i :: 0 <= i < |draws| ==> IsDraw(draws[i])
    ensures r.isPlaying == !s.isPlaying
    ensures s.isPlaying ==> r.audioData == s.audioData
    ensures s.isPlaying && s.animationRef.Some? ==> r.frames == s.frames - {s.animationRef.value}
    ensures s.isPlaying && s.animationRef.None? ==> r.frames == s.frames
    ensures !s.isPlaying ==> r.audioData == RandomBeat(chaosMode, draws) && r.frames == s.frames
    ensures r.animationRef == s.animationRef && r.audioContext == s.audioContext && r.closed == s.closed
  {
    if s.isPlaying then
      var s1 := s.(isPlaying := false);
      if s1.animationRef.Some? then s1.(frames := s1.frames - {s1.animationRef.value}) else s1
    else
      var s1 := s.(isPlaying := true);
      // animate(): generateRandomBeat(); the captured isPlaying is false
      s1.(audioData := RandomBeat(chaosMode, draws))
  }

  /** The analyser loop's data update: `setAudioData(normalizedData)`. */
  function Analysed(s: State, bytes: seq<Byte>): (r: State)
    ensures r.audioData == Normalise(bytes)
    ensures r.isPlaying == s.isPlaying && r.frames == s.frames
  {
    s.(audioData := Normalise(bytes))
  }

  /** The effect's cleanup: cancel the pending frame, close the context. */
  function Teardown(s: State): (r: State)
    ensures s.animationRef.Some? ==> r.frames == s.frames - {s.animationRef.value}
    ensures s.animationRef.None? ==> r.frames == s.frames
    ensures s.audioContext.Some? ==> r.closed
    ensures s.audioContext.None? ==> r.closed == s.closed
    ensures r.animationRef == s.animationRef && r.audioContext == s.audioContext
    ensures r.audioData == s.audioData && r.isPlaying == s.isPlaying
  {
    var s1 := if s.animationRef.Some? then s.(frames := s.frames - {s.animationRef.value}) else s;
    if s1.audioContext.Some? then s1.(closed := true) else s1
  }

  datatype Event = ButtonClick(chaosMode: bool, draws: seq<real>) | AnalyserBytes(bytes: seq<Byte>) | Unmount

  predicate EventOk(e: Event) {
    e.ButtonClick? ==>
      |e.draws| == BarCount(e.chaosMode) && forall i :: 0 <= i < |e.draws| ==> IsDraw(e.draws[i])
  }

  predicate EventsOk(evs: seq<Event>) {
    forall i :: 0 <= i < |evs| ==> EventOk(evs[i])
  }

  function Step(s: State, e: Event): State
    requires EventOk(e)
  {
    match e
    case ButtonClick(c, draws) => StartStop(s, c, draws)
    case AnalyserBytes(bytes) => Analysed(s, bytes)
    case Unmount => Teardown(s)
  }

  function Run(s: State, evs: seq<Event>): State
    requires EventsOk(evs)
    decreases |evs|
  {
    if evs == [] then s else Run(Step(s, evs[0]), evs[1..])
  }

  /** Bar values are never negative, and no frame is ever pending. */
  ghost predicate Inv(s: State) {
    (forall i :: 0 <= i < |s.audioData| ==> s.audioData[i] >= 0.0) && s.frames == {}
  }

  /** Along any trace the values stay non-negative, so every hue lies in
      [0, 360), and no animation frame is ever requested: the beat does not
      animate, each START draws exactly one beat. */
  lemma {:induction false} NoAnimationLoop(s: State, evs: seq<Event>)
    requires Inv(s) && EventsOk(evs)
    ensures Inv(Run(s, evs))
    ensures forall i :: 0 <= i < |Run(s, evs).audioData| ==>
      0.0 <= Bars(Run(s, evs).audioData, true)[i].hue < 360.0
    decreases |evs|
  {
    if evs != [] {
      var t := Step(s, evs[0]);
      assert Inv(t);
      NoAnimationLoop(t, evs[1..]);
    } else {
      var bars := Bars(s.audioData, true);
      assert forall i :: 0 <= i < |s.audioData| ==> 0.0 <= bars[i].hue < 360.0;
    }
  }

  /** Start then stop leaves the drawn beat on screen and nothing playing. */
  lemma StartThenStop(chaosMode: bool, draws: seq<real>, draws2: seq<real>)
    requires |draws| == BarCount(chaosMode) && forall i :: 0 <= i < |draws| ==> IsDraw(draws[i])
    requires |draws2| == BarCount(chaosMode) && forall i :: 0 <= i < |draws2| ==> IsDraw(draws2[i])
    ensures var r := StartStop(StartStop(Init(chaosMode), chaosMode, draws), chaosMode, draws2);
      !r.isPlaying && r.audioData == RandomBeat(chaosMode, draws) && r.frames == {}
  {
  }

  /** The component instance, updated in place. */
  class Visualizer {
    var isPlaying: bool
    var audioData: seq<real>
    var animationRef: Option<nat>
    var frames: set<nat>
    var audioContext: Option<nat>
    var closed: bool

    function Snapshot(): State
      reads this
    {
      State(isPlaying, audioData, animationRef, frames, audioContext, closed)
    }

    constructor (chaosMode: bool)
      ensures Snapshot() == Init(chaosMode)
    {
      isPlaying := false;
      audioData := seq(BarCount(chaosMode), _ => 0.0);
      animationRef, frames, audioContext, closed := None, {}, None, false;
    }

    /** `generateRandomBeat` as the component runs it: fill the bars. */
    method GenerateRandomBeat(chaosMode: bool, draws: seq<real>)
      requires |draws| == BarCount(chaosMode) && forall i :: 0 <= i < |draws| ==> IsDraw(draws[i])
      modifies this
      ensures audioData == RandomBeat(chaosMode, draws)
      ensures isPlaying == old(isPlaying) && frames == old(frames) && animationRef == old(animationRef)
      ensures audioContext == old(audioContext) && closed == old(closed)
    {
      audioData := RandomBeat(chaosMode, draws);
    }

    method StartVisualization(chaosMode: bool, draws: seq<real>)
      requires |draws| == BarCount(chaosMode) && forall i :: 0 <= i < |draws| ==> IsDraw(draws[i])
      modifies this
      ensures Snapshot() == StartStop(old(Snapshot()), chaosMode, draws)
    {
      if isPlaying {
        isPlaying := false;
        if animationRef.Some? {
          frames := frames - {animationRef.value};
        }
        return;
      }
      isPlaying := true;
      // animate() runs once; its frame request sees the captured `false`
      GenerateRandomBeat(chaosMode, draws);
    }

    method Cleanup()
      modifies this
      ensures Snapshot() == Teardown(old(Snapshot()))
    {
      if animationRef.Some? {
        frames := frames - {animationRef.value};
      }
      if audioContext.Some? {
        closed := true;
      }
    }
  }
}
