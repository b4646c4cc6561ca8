/** `MiniGame` ("Chaos Catcher"): while chaos mode is on, a 1000 ms interval
    spawns a target at a random spot, each target disappears 2000 ms after it
    spawned, and clicking a target scores 10 points and removes it. */
module MiniGame {
  import opened Common

  const SpawnMs: int := 1000
  const LifetimeMs: int := 2000

  /** A target: its id is the `Date.now()` of its spawn. */
  datatype GameTarget = GameTarget(id: int, x: real, y: real)

  function TargetId(t: GameTarget): int {
    t.id
  }

  /** The running `setInterval`: its handle and when it next fires. */
  datatype Interval = Interval(handle: nat, due: int)

  /** A pending `setTimeout` that removes the target with id `id`. */
  datatype Removal = Removal(handle: nat, due: int, id: int)

  /** The `chaosMode` prop last rendered, the `score`, `targets` and
      `gameActive` state, the interval of the second effect, the pending
      removal timeouts in the order they were armed, and the host's next
      timer handle. */
  datatype State = State(chaosMode: bool, score: int, targets: seq<GameTarget>, gameActive: bool,
                         interval: Option<Interval>, removals: seq<Removal>, nextHandle: nat)

  /** The three `useState` initial values, before any effect has run. */
  function Fresh(): State {
    State(false, 0, [], false, None, [], 1)
  }

  /** A render with the prop `chaosMode` at `now`, followed by the two
      effects: the first syncs `gameActive` (and resets the score on
      activation, empties the targets on deactivation); the second, when
      `gameActive` changed, clears the old interval or arms a new one. */
  function SetChaos(s: State, chaosMode: bool, now: int): (r: State)
    ensures r.chaosMode == chaosMode && r.gameActive == chaosMode
    ensures chaosMode && !s.gameActive ==>
      r.score == 0 && r.targets == s.targets && r.interval == Some(Interval(s.nextHandle, now + SpawnMs))
    ensures chaosMode && s.gameActive ==> r == s.(chaosMode := true)
    ensures !chaosMode ==> r.score == s.score && r.targets == []
    ensures !chaosMode && s.gameActive ==> r.interval.None?
    ensures !chaosMode && !s.gameActive ==> r.interval == s.interval
    ensures r.removals == s.removals
  {
    var s1 := s.(chaosMode := chaosMode);
    var s2 :=
      if chaosMode && !s1.gameActive then s1.(gameActive := true, score := 0)
      else if !chaosMode then s1.(gameActive := false, targets := [])
      else s1;
    if s2.gameActive == s.gameActive then s2
    else if s2.gameActive then
      s2.(interval := Some(Interval(s2.nextHandle, now + SpawnMs)), nextHandle := s2.nextHandle + 1)
    else
      s2.(interval := None)
  }

  /** The component mounted with prop `chaosMode` at `now`. */
  function Init(chaosMode: bool, now: int): State {
    SetChaos(Fresh(), chaosMode, now)
  }

  /** The interval callback, once the interval is due at `now`: a target at
      a random spot of a `w` x `h` window (kept 100 px from the far edges),
      appended at the end, and a removal armed for 2000 ms later. */
  function Spawn(s: State, now: int, draw: Point, w: real, h: real): (r: State)
    requires IsDraw(draw.x) && IsDraw(draw.y)
    ensures s.interval.Some? && s.interval.value.due <= now ==>
      |r.targets| == |s.targets| + 1 && r.targets[..|s.targets|] == s.targets &&
      r.targets[|s.targets|].id == now &&
      (w - 100.0 > 0.0 ==> 0.0 <= r.targets[|s.targets|].x < w - 100.0) &&
      (h - 100.0 > 0.0 ==> 0.0 <= r.targets[|s.targets|].y < h - 100.0) &&
      r.removals == s.removals + [Removal(s.nextHandle, now + LifetimeMs, now)] &&
      r.interval == Some(Interval(s.interval.value.handle, s.interval.value.due + SpawnMs)) &&
      r.score == s.score && r.gameActive == s.gameActive
    ensures !(s.interval.Some? && s.interval.value.due <= now) ==> r == s
  {
    if s.interval.Some? && s.interval.value.due <= now then
      var t := GameTarget(now, Scale(draw.x, w - 100.0), Scale(draw.y, h - 100.0));
      s.(targets := s.targets + [t],
         removals := s.removals + [Removal(s.nextHandle, now + LifetimeMs, now)],
         interval := Some(s.interval.value.(due := s.interval.value.due + SpawnMs)),
         nextHandle := s.nextHandle + 1)
    else
      s
  }

  /** The earliest removal timeout, once due at `now`: drop the targets
      with its id. */
  function Expire(s: State, now: int): (r: State)
    ensures s.removals != [] && s.removals[0].due <= now ==>
      r.targets == Without(s.targets, TargetId, s.removals[0].id) && r.removals == s.removals[1..]
    ensures !(s.removals != [] && s.removals[0].due <= now) ==> r == s
    ensures r.score == s.score && r.gameActive == s.gameActive && r.interval == s.interval
  {
    if s.removals != [] && s.removals[0].due <= now then
      s.(targets := Without(s.targets, TargetId, s.removals[0].id), removals := s.removals[1..])
    else
      s
  }

  /** `handleTargetClick(targetId)`: 10 points, whether or not a target with
      that id is still there, and the target removed. */
  function Click(s: State, targetId: int): (r: State)
    ensures r.score == s.score + 10
    ensures r.targets == Without(s.targets, TargetId, targetId)
    ensures forall t :: t in s.targets && t.id != targetId ==> t in r.targets
    ensures forall t :: t in r.targets ==> t.id != targetId
    ensures r.gameActive == s.gameActive && r.interval == s.interval && r.removals == s.removals
  {
    s.(score := s.score + 10, targets := Without(s.targets, TargetId, targetId))
  }

  /** What the component renders: nothing while chaos mode is off. */
  datatype Screen = Screen(score: int, targets: seq<GameTarget>)

  function View(s: State): (v: Option<Screen>)
    ensures v.None? <==> !s.chaosMode
    ensures v.Some? ==> v.value == Screen(s.score, s.targets)
  {
    if !s.chaosMode then None else Some(Screen(s.score, s.targets))
  }

  datatype Event = ChaosAt(chaosMode: bool, now: int)
                 | IntervalAt(now: int, draw: Point, w: real, h: real)
                 | TimeoutAt(now: int)
                 | ClickOn(targetId: int)

  predicate EventOk(e: Event) {
    e.IntervalAt? ==> IsDraw(e.draw.x) && IsDraw(e.draw.y)
  }

  predicate EventsOk(evs: seq<Event>) {
    forall i :: 0 <= i < |evs| ==> EventOk(evs[i])
  }

  function Step(s: State, e: Event): State
    requires EventOk(e)
  {
    match e
    case ChaosAt(c, now) => SetChaos(s, c, now)
    case IntervalAt(now, draw, w, h) => Spawn(s, now, draw, w, h)
    case TimeoutAt(now) => Expire(s, now)
    case ClickOn(id) => Click(s, id)
  }

  function Run(s: State, evs: seq<Event>): State
    requires EventsOk(evs)
    decreases |evs|
  {
    if evs == [] then s else Run(Step(s, evs[0]), evs[1..])
  }

  /** The game runs exactly while chaos mode is on; the spawn interval
      exists exactly while the game runs; an inactive game has no targets. */
  ghost predicate Inv(s: State) {
    s.gameActive == s.chaosMode &&
    (s.gameActive <==> s.interval.Some?) &&
    (!s.gameActive ==> s.targets == [])
  }

  lemma InitInv(chaosMode: bool, now: int)
    ensures Inv(Init(chaosMode, now))
    ensures Init(chaosMode, now).score == 0 && Init(chaosMode, now).targets == []
    ensures Init(chaosMode, now).gameActive == chaosMode
  {
  }

  lemma {:induction false} InvPreserved(s: State, evs: seq<Event>)
    requires Inv(s) && EventsOk(evs)
    ensures Inv(Run(s, evs))
    decreases |evs|
  {
    if evs != [] {
      var t := Step(s, evs[0]);
      assert Inv(t);
      InvPreserved(t, evs[1..]);
    }
  }

  /** Every change of score is a +10 or a reset to 0, so the score is always
      a multiple of 10. */
  lemma {:induction false} ScoreMultipleOfTen(s: State, evs: seq<Event>)
    requires s.score % 10 == 0 && EventsOk(evs)
    ensures Run(s, evs).score % 10 == 0
    decreases |evs|
  {
    if evs != [] {
      ScoreMultipleOfTen(Step(s, evs[0]), evs[1..]);
    }
  }

  /** The score never goes down while the game keeps running. */
  lemma {:induction false} ScoreGrowsWhileActive(s: State, evs: seq<Event>)
    requires EventsOk(evs) && s.gameActive
    requires forall i :: 0 <= i < |evs| ==> !evs[i].ChaosAt?
    ensures Run(s, evs).score >= s.score && Run(s, evs).gameActive
    decreases |evs|
  {
    if evs != [] {
      ScoreGrowsWhileActive(Step(s, evs[0]), evs[1..]);
    }
  }

  /** A spawn followed by the removal of any other id keeps the new target
      at the end, after the surviving older ones. */
  lemma SpawnThenExpireOther(s: State, now: int, draw: Point, w: real, h: real, other: int)
    requires IsDraw(draw.x) && IsDraw(draw.y)
    requires s.interval.Some? && s.interval.value.due <= now && other != now
    ensures var r := Spawn(s, now, draw, w, h);
      Without(r.targets, TargetId, other) == Without(s.targets, TargetId, other) + [r.targets[|s.targets|]]
  {
    var r := Spawn(s, now, draw, w, h);
    assert r.targets == s.targets + [r.targets[|s.targets|]];
    WithoutAppend(s.targets, [r.targets[|s.targets|]], TargetId, other);
    WithoutAbsent([r.targets[|s.targets|]], TargetId, other);
  }

  function RemovalId(r: Removal): int {
    r.id
  }

  /** No target outlives its timer: every target on screen still has a
      pending removal carrying its id. */
  ghost predicate Covered(s: State) {
    forall i :: 0 <= i < |s.targets| ==> s.targets[i].id in KeySet(s.removals, RemovalId)
  }

  lemma {:induction false} CoveredPreserved(s: State, e: Event)
    requires Covered(s) && EventOk(e)
    ensures Covered(Step(s, e))
  {
    var r := Step(s, e);
    forall i | 0 <= i < |r.targets|
      ensures r.targets[i].id in KeySet(r.removals, RemovalId)
    {
      var x := r.targets[i];
      match e
      case ChaosAt(c, now) =>
        assert x == s.targets[i];
      case IntervalAt(now, draw, w, h) =>
        if s.interval.Some? && s.interval.value.due <= now {
          KeySetAppend(s.removals, [Removal(s.nextHandle, now + LifetimeMs, now)], RemovalId);
          if i < |s.targets| {
            assert r.targets[..|s.targets|][i] == x;
          }
        }
      case TimeoutAt(now) =>
        if s.removals != [] && s.removals[0].due <= now {
          assert x in r.targets;
          var j :| 0 <= j < |s.targets| && s.targets[j] == x;
          assert x.id in KeySet(s.removals, RemovalId) && x.id != s.removals[0].id;
        }
      case ClickOn(id) =>
        assert x in r.targets;
        var j :| 0 <= j < |s.targets| && s.targets[j] == x;
    }
  }

  lemma {:induction false} NoTargetOutlivesItsTimer(s: State, evs: seq<Event>)
    requires Covered(s) && EventsOk(evs)
    ensures Covered(Run(s, evs))
    decreases |evs|
  {
    if evs != [] {
      CoveredPreserved(s, evs[0]);
      NoTargetOutlivesItsTimer(Step(s, evs[0]), evs[1..]);
    }
  }

  /** A click on an id no target has any more (it expired, or was already
      clicked) still scores, and changes nothing else. */
  lemma ClickOnVanishedTargetScores(s: State, targetId: int)
    requires forall i :: 0 <= i < |s.targets| ==> s.targets[i].id != targetId
    ensures Click(s, targetId) == s.(score := s.score + 10)
  {
    WithoutAbsent(s.targets, TargetId, targetId);
  }

  /** Turning chaos mode off while targets are out leaves their removal
      timeouts armed; they fire later on an already empty list. */
  lemma OffKeepsRemovalsArmed(s: State, now: int)
    requires Inv(s) && s.gameActive
    ensures SetChaos(s, false, now).removals == s.removals
    ensures SetChaos(s, false, now).targets == [] && SetChaos(s, false, now).interval.None?
  {
  }

  /** The component instance: its state values and timers, updated in place. */
  class Game {
    var chaosMode: bool
    var score: int
    var targets: seq<GameTarget>
    var gameActive: bool
    var interval: Option<Interval>
    var removals: seq<Removal>
    var nextHandle: nat

    function Snapshot(): State
      reads this
    {
      State(chaosMode, score, targets, gameActive, interval, removals, nextHandle)
    }

    constructor (chaosMode: bool, now: int)
      ensures Snapshot() == Init(chaosMode, now)
    {
      this.chaosMode := chaosMode;
      score, targets, removals := 0, [], [];
      if chaosMode {
        gameActive, interval, nextHandle := true, Some(Interval(1, now + SpawnMs)), 2;
      } else {
        gameActive, interval, nextHandle := false, None, 1;
      }
    }

    /** A render with a new `chaosMode` prop and the effects that follow it. */
    method ChaosChanged(chaosMode: bool, now: int)
      modifies this
      ensures Snapshot() == SetChaos(old(Snapshot()), chaosMode, now)
    {
      var wasActive := gameActive;
      this.chaosMode := chaosMode;
      if chaosMode && !gameActive {
        gameActive := true;
        score := 0;
      } else if !chaosMode {
        gameActive := false;
        targets := [];
      }
      if gameActive != wasActive {
        if gameActive {
          interval := Some(Interval(nextHandle, now + SpawnMs));
          nextHandle := nextHandle + 1;
        } else {
          interval := None;
        }
      }
    }

    method IntervalTick(now: int, draw: Point, w: real, h: real)
      requires IsDraw(draw.x) && IsDraw(draw.y)
      modifies this
      ensures Snapshot() == Spawn(old(Snapshot()), now, draw, w, h)
    {
      if interval.Some? && interval.value.due <= now {
        var t := GameTarget(now, Scale(draw.x, w - 100.0), Scale(draw.y, h - 100.0));
        targets := targets + [t];
        removals := removals + [Removal(nextHandle, now + LifetimeMs, now)];
        interval := Some(interval.value.(due := interval.value.due + SpawnMs));
        nextHandle := nextHandle + 1;
      }
    }

    method TimeoutTick(now: int)
      modifies this
      ensures Snapshot() == Expire(old(Snapshot()), now)
    {
      if removals != [] && removals[0].due <= now {
        targets := Without(targets, TargetId, removals[0].id);
        removals := removals[1..];
      }
    }

    method HandleTargetClick(targetId: int)
      modifies this
      ensures Snapshot() == Click(old(Snapshot()), targetId)
    {
      score := score + 10;
      targets := Without(targets, TargetId, targetId);
    }
  }
}
