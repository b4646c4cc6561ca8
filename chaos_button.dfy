/** `ChaosButton`: the toggle button. Each click spawns an explosion effect at
    a random spot, removes it again 1000 ms later, and calls `onToggle`. */
module ChaosButton {
  import opened Common

  const ExplosionMs: int := 1000

  /** An explosion: its id is the `Date.now()` of the click. */
  datatype Explosion = Explosion(id: int, x: real, y: real)

  function ExplosionId(e: Explosion): int {
    e.id
  }

  /** A pending `setTimeout` that removes the explosions with id `id`. */
  datatype Removal = Removal(handle: nat, due: int, id: int)

  /** The `explosions` state, the pending removals in the order they were
      armed, the host's next timer handle, and how many times `onToggle` has
      been called. */
  datatype State = State(explosions: seq<Explosion>, removals: seq<Removal>, nextHandle: nat, toggles: nat)

  function Init(): State {
    State([], [], 1, 0)
  }

  /** `handleClick` at `now` in a `w` x `h` window. */
  function Click(s: State, now: int, draw: Point, w: real, h: real): (r: State)
    requires IsDraw(draw.x) && IsDraw(draw.y)
    ensures |r.explosions| == |s.explosions| + 1 && r.explosions[..|s.explosions|] == s.explosions
    ensures var e := r.explosions[|s.explosions|];
      e.id == now && (w > 0.0 ==> 0.0 <= e.x < w) && (h > 0.0 ==> 0.0 <= e.y < h)
    ensures r.removals == s.removals + [Removal(s.nextHandle, now + ExplosionMs, now)]
    ensures r.toggles == s.toggles + 1
  {
    var e := Explosion(now, Scale(draw.x, w), Scale(draw.y, h));
    State(s.explosions + [e], s.removals + [Removal(s.nextHandle, now + ExplosionMs, now)],
          s.nextHandle + 1, s.toggles + 1)
  }

  /** The earliest removal, once due at `now`: drop the explosions with its id. */
  function Expire(s: State, now: int): (r: State)
    ensures s.removals != [] && s.removals[0].due <= now ==>
      r.explosions == Without(s.explosions, ExplosionId, s.removals[0].id) && r.removals == s.removals[1..]
    ensures !(s.removals != [] && s.removals[0].due <= now) ==> r == s
    ensures r.toggles == s.toggles
  {
    if s.removals != [] && s.removals[0].due <= now then
      s.(explosions := Without(s.explosions, ExplosionId, s.removals[0].id), removals := s.removals[1..])
    else
      s
  }

  /** The button's text. */
  function Caption(chaosMode: bool): string {
    if chaosMode then "\U{1F32A}\U{FE0F} CHAOS ON" else "\U{26A1} ACTIVATE CHAOS"
  }

  /** The two captions differ, so the text tells the mode. */
  lemma CaptionTellsMode(a: bool, b: bool)
    ensures Caption(a) == Caption(b) <==> a == b
  {
    if a != b {
      assert Caption(a)[0] != Caption(b)[0];
    }
  }

  datatype Event = ClickAt(now: int, draw: Point, w: real, h: real) | TimeoutAt(now: int)

  predicate EventsOk(evs: seq<Event>) {
    forall i :: 0 <= i < |evs| ==> evs[i].ClickAt? ==> IsDraw(evs[i].draw.x) && IsDraw(evs[i].draw.y)
  }

  function Step(s: State, e: Event): State
    requires e.ClickAt? ==> IsDraw(e.draw.x) && IsDraw(e.draw.y)
  {
    match e
    case ClickAt(now, draw, w, h) => Click(s, now, draw, w, h)
    case TimeoutAt(now) => Expire(s, now)
  }

  function Run(s: State, evs: seq<Event>): State
    requires EventsOk(evs)
    decreases |evs|
  {
    if evs == [] then s else Run(Step(s, evs[0]), evs[1..])
  }

  /** The number of clicks in a trace. */
  function Clicks(evs: seq<Event>): nat
    decreases |evs|
  {
    if evs == [] then 0 else (if evs[0].ClickAt? then 1 else 0) + Clicks(evs[1..])
  }

  /** `onToggle` is called exactly once per click, and only by a click. */
  lemma {:induction false} OneTogglePerClick(s: State, evs: seq<Event>)
    requires EventsOk(evs)
    ensures Run(s, evs).toggles == s.toggles + Clicks(evs)
    ensures |Run(s, evs).explosions| <= |s.explosions| + Clicks(evs)
    decreases |evs|
  {
    if evs != [] {
      OneTogglePerClick(Step(s, evs[0]), evs[1..]);
    }
  }

  function RemovalId(r: Removal): int {
    r.id
  }

  /** No explosion outlives its timer: every explosion on screen still has a
      pending removal carrying its id. */
  ghost predicate Covered(s: State) {
    forall i :: 0 <= i < |s.explosions| ==> s.explosions[i].id in KeySet(s.removals, RemovalId)
  }

  lemma {:induction false} CoveredPreserved(s: State, e: Event)
    requires Covered(s)
    requires e.ClickAt? ==> IsDraw(e.draw.x) && IsDraw(e.draw.y)
    ensures Covered(Step(s, e))
  {
    match e
    case ClickAt(now, draw, w, h) =>
      var r := Click(s, now, draw, w, h);
      KeySetAppend(s.removals, [Removal(s.nextHandle, now + ExplosionMs, now)], RemovalId);
      assert KeySet([Removal(s.nextHandle, now + ExplosionMs, now)], RemovalId) == {now};
      forall i | 0 <= i < |r.explosions|
        ensures r.explosions[i].id in KeySet(r.removals, RemovalId)
      {
        if i < |s.explosions| {
          assert r.explosions[i] == s.explosions[i];
        }
      }
    case TimeoutAt(now) =>
      if s.removals != [] && s.removals[0].due <= now {
        var r := Expire(s, now);
        forall i | 0 <= i < |r.explosions|
          ensures r.explosions[i].id in KeySet(r.removals, RemovalId)
        {
          var x := r.explosions[i];
          assert x in r.explosions;
          var j :| 0 <= j < |s.explosions| && s.explosions[j] == x;
          assert x.id in KeySet(s.removals, RemovalId) && x.id != s.removals[0].id;
        }
      }
  }

  lemma {:induction false} NoExplosionOutlivesItsTimer(s: State, evs: seq<Event>)
    requires Covered(s) && EventsOk(evs)
    ensures Covered(Run(s, evs))
    decreases |evs|
  {
    if evs != [] {
      CoveredPreserved(s, evs[0]);
      NoExplosionOutlivesItsTimer(Step(s, evs[0]), evs[1..]);
    }
  }

  /** A single click's explosion is gone once its timeout has fired, and
      `onToggle` has been called once. */
  lemma ClickThenExpire(now: int, draw: Point, w: real, h: real)
    requires IsDraw(draw.x) && IsDraw(draw.y)
    ensures Run(Init(), [ClickAt(now, draw, w, h), TimeoutAt(now + ExplosionMs)]).explosions == []
    ensures Run(Init(), [ClickAt(now, draw, w, h), TimeoutAt(now + ExplosionMs)]).toggles == 1
  {
    var evs := [ClickAt(now, draw, w, h), TimeoutAt(now + ExplosionMs)];
    assert evs[1..] == [TimeoutAt(now + ExplosionMs)];
    var s1 := Click(Init(), now, draw, w, h);
    assert Run(Init(), evs) == Run(s1, evs[1..]);
    assert s1.explosions[1..] == [];
  }

  /** The component instance, updated in place. `onToggle` is the parent's
      callback; the model counts its calls. */
  class Button {
    var explosions: seq<Explosion>
    var removals: seq<Removal>
    var nextHandle: nat
    var toggles: nat

    function Snapshot(): State
      reads this
    {
      State(explosions, removals, nextHandle, toggles)
    }

    constructor ()
      ensures Snapshot() == Init()
    {
      explosions, removals, nextHandle, toggles := [], [], 1, 0;
    }

    method HandleClick(now: int, draw: Point, w: real, h: real)
      requires IsDraw(draw.x) && IsDraw(draw.y)
      modifies this
      ensures Snapshot() == Click(old(Snapshot()), now, draw, w, h)
    {
      explosions := explosions + [Explosion(now, Scale(draw.x, w), Scale(draw.y, h))];
      removals := removals + [Removal(nextHandle, now + ExplosionMs, now)];
      nextHandle := nextHandle + 1;
      toggles := toggles + 1;
    }

    method TimeoutTick(now: int)
      modifies this
      ensures Snapshot() == Expire(old(Snapshot()), now)
    {
      if removals != [] && removals[0].due <= now {
        explosions := Without(explosions, ExplosionId, removals[0].id);
        removals := removals[1..];
      }
    }
  }
}
