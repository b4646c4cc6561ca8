/** `ChaosEffects`: while chaos mode is on, a 500 ms interval releases a
    floating emoji or phrase at a random spot, each of which disappears 3000 ms
    later, and a 3000 ms interval shakes the screen for 200 ms. */
module ChaosEffects {
  import opened Common

  const SpawnMs: int := 500
  const LifetimeMs: int := 3000
  const ShakeEveryMs: int := 3000
  const ShakeMs: int := 200

  /** The number of entries of the emoji list. */
  const EmojiCount: nat := 10

  const Phrases: seq<string> := ["CHAOS!", "WILD!", "UNLEASHED!", "BOOM!", "MAGIC!"]

  /** What a floating element shows: an entry of the emoji list (by index)
      or one of the phrases. */
  datatype Content = Emoji(index: nat) | Phrase(text: string)

  /** A floating element: its id is `Date.now() + Math.random()`, and its
      colour is `hsl(hue, 70%, 50%)`. */
  datatype Element = Element(id: real, x: real, y: real, content: Content, size: real, hue: real)

  function ElementId(e: Element): real {
    e.id
  }

  /** The `Math.random()` values one spawn draws, in the order it draws them. */
  datatype ElementDraws = ElementDraws(jitter: real, x: real, y: real, kind: real, pick: real, size: real, hue: real)

  predicate DrawsOk(d: ElementDraws) {
    IsDraw(d.jitter) && IsDraw(d.x) && IsDraw(d.y) && IsDraw(d.kind) &&
    IsDraw(d.pick) && IsDraw(d.size) && IsDraw(d.hue)
  }

  /** The element spawned at `now` in a `w` x `h` window. */
  function NewElement(now: int, d: ElementDraws, w: real, h: real): (e: Element)
    requires DrawsOk(d)
    ensures now as real <= e.id < now as real + 1.0
    ensures w > 0.0 ==> 0.0 <= e.x < w
    ensures h > 0.0 ==> 0.0 <= e.y < h
    ensures 20.0 <= e.size < 60.0 && 0.0 <= e.hue < 360.0
    ensures e.content.Emoji? <==> d.kind > 0.5
    ensures e.content.Emoji? ==> e.content.index < EmojiCount
    ensures e.content.Phrase? ==> e.content.text in Phrases
  {
    Element(now as real + d.jitter, Scale(d.x, w), Scale(d.y, h),
            if d.kind > 0.5 then Emoji(PickIndex(d.pick, EmojiCount))
            else Phrase(Phrases[PickIndex(d.pick, |Phrases|)]),
            Scale(d.size, 40.0) + 20.0, Scale(d.hue, 360.0))
  }

  /** A running `setInterval`: its handle and when it next fires. */
  datatype Interval = Interval(handle: nat, due: int)

  /** A pending removal timeout for the elements with id `id`. */
  datatype Removal = Removal(handle: nat, due: int, id: real)

  function RemovalId(r: Removal): real {
    r.id
  }

  /** A pending `setTimeout(() => setScreenShake(false), 200)`. */
  datatype Unshake = Unshake(handle: nat, due: int)

  /** The `chaosMode` prop last rendered, `floatingElements`, their removal
      timeouts, the spawn interval, `screenShake`, the shake interval, the
      pending un-shake timeouts, and the host's next timer handle. */
  datatype State = State(chaosMode: bool, elements: seq<Element>, removals: seq<Removal>,
                         spawner: Option<Interval>, shake: bool, shaker: Option<Interval>,
                         unshakes: seq<Unshake>, nextHandle: nat)

  function Fresh(): State {
    State(false, [], [], None, false, None, [], 1)
  }

  /** A render with the prop `chaosMode` at `now`. Both effects depend only
      on `chaosMode`: when it changes, their cleanups clear both intervals,
      and when it is now on, both intervals are armed again. The elements,
      their removals, the shake flag and its pending timeouts are left alone. */
  function SetChaos(s: State, chaosMode: bool, now: int): (r: State)
    ensures r.chaosMode == chaosMode
    ensures r.elements == s.elements && r.removals == s.removals
    ensures r.shake == s.shake && r.unshakes == s.unshakes
    ensures chaosMode == s.chaosMode ==> r == s
    ensures chaosMode != s.chaosMode && chaosMode ==>
      r.spawner == Some(Interval(s.nextHandle, now + SpawnMs)) &&
      r.shaker == Some(Interval(s.nextHandle + 1, now + ShakeEveryMs))
    ensures chaosMode != s.chaosMode && !chaosMode ==> r.spawner.None? && r.shaker.None?
  {
    if chaosMode == s.chaosMode then s
    else if chaosMode then
      s.(chaosMode := true, spawner := Some(Interval(s.nextHandle, now + SpawnMs)),
         shaker := Some(Interval(s.nextHandle + 1, now + ShakeEveryMs)), nextHandle := s.nextHandle + 2)
    else
      s.(chaosMode := false, spawner := None, shaker := None)
  }

  function Init(chaosMode: bool, now: int): State {
    SetChaos(Fresh(), chaosMode, now)
  }

  /** The spawn interval, once due at `now`: one element appended at the
      end, and its removal armed 3000 ms later. */
  function Spawn(s: State, now: int, d: ElementDraws, w: real, h: real): (r: State)
    requires DrawsOk(d)
    ensures s.spawner.Some? && s.spawner.value.due <= now ==>
      r.elements == s.elements + [NewElement(now, d, w, h)] &&
      r.removals == s.removals + [Removal(s.nextHandle, now + LifetimeMs, NewElement(now, d, w, h).id)] &&
      r.spawner == Some(Interval(s.spawner.value.handle, s.spawner.value.due + SpawnMs))
    ensures !(s.spawner.Some? && s.spawner.value.due <= now) ==> r == s
    ensures r.shake == s.shake && r.shaker == s.shaker && r.unshakes == s.unshakes && r.chaosMode == s.chaosMode
  {
    if s.spawner.Some? && s.spawner.value.due <= now then
      var e := NewElement(now, d, w, h);
      s.(elements := s.elements + [e],
         removals := s.removals + [Removal(s.nextHandle, now + LifetimeMs, e.id)],
         spawner := Some(s.spawner.value.(due := s.spawner.value.due + SpawnMs)),
         nextHandle := s.nextHandle + 1)
    else
      s
  }

  /** The earliest removal, once due at `now`: drop the elements with its id. */
  function Expire(s: State, now: int): (r: State)
    ensures s.removals != [] && s.removals[0].due <= now ==>
      r.elements == Without(s.elements, ElementId, s.removals[0].id) && r.removals == s.removals[1..]
    ensures !(s.removals != [] && s.removals[0].due <= now) ==> r == s
    ensures r.shake == s.shake && r.spawner == s.spawner && r.shaker == s.shaker && r.unshakes == s.unshakes
  {
    if s.removals != [] && s.removals[0].due <= now then
      s.(elements := Without(s.elements, ElementId, s.removals[0].id), removals := s.removals[1..])
    else
      s
  }

  /** The shake interval, once due at `now`: shake, and arm the un-shake. */
  function Shake(s: State, now: int): (r: State)
    ensures s.shaker.Some? && s.shaker.value.due <= now ==>
      r.shake && r.unshakes == s.unshakes + [Unshake(s.nextHandle, now + ShakeMs)] &&
      r.shaker == Some(Interval(s.shaker.value.handle, s.shaker.value.due + ShakeEveryMs))
    ensures !(s.shaker.Some? && s.shaker.value.due <= now) ==> r == s
    ensures r.elements == s.elements && r.removals == s.removals && r.spawner == s.spawner
  {
    if s.shaker.Some? && s.shaker.value.due <= now then
      s.(shake := true, unshakes := s.unshakes + [Unshake(s.nextHandle, now + ShakeMs)],
         shaker := Some(s.shaker.value.(due := s.shaker.value.due + ShakeEveryMs)),
         nextHandle := s.nextHandle + 1)
    else
      s
  }

  /** The earliest un-shake timeout, once due at `now`. */
  function Unshaken(s: State, now: int): (r: State)
    ensures s.unshakes != [] && s.unshakes[0].due <= now ==> !r.shake && r.unshakes == s.unshakes[1..]
    ensures !(s.unshakes != [] && s.unshakes[0].due <= now) ==> r == s
    ensures r.elements == s.elements && r.removals == s.removals && r.spawner == s.spawner && r.shaker == s.shaker
  {
    if s.unshakes != [] && s.unshakes[0].due <= now then
      s.(shake := false, unshakes := s.unshakes[1..])
    else
      s
  }

  datatype Event = ChaosAt(chaosMode: bool, now: int)
                 | SpawnAt(now: int, draws: ElementDraws, w: real, h: real)
                 | RemovalAt(now: int)
                 | ShakeAt(now: int)
                 | UnshakeAt(now: int)

  predicate EventOk(e: Event) {
    e.SpawnAt? ==> DrawsOk(e.draws)
  }

  predicate EventsOk(evs: seq<Event>) {
    forall i :: 0 <= i < |evs| ==> EventOk(evs[i])
  }

  function Step(s: State, e: Event): State
    requires EventOk(e)
  {
    match e
    case ChaosAt(c, now) => SetChaos(s, c, now)
    case SpawnAt(now, d, w, h) => Spawn(s, now, d, w, h)
    case RemovalAt(now) => Expire(s, now)
    case ShakeAt(now) => Shake(s, now)
    case UnshakeAt(now) => Unshaken(s, now)
  }

  function Run(s: State, evs: seq<Event>): State
    requires EventsOk(evs)
    decreases |evs|
  {
    if evs == [] then s else Run(Step(s, evs[0]), evs[1..])
  }

  /** Both intervals run exactly while chaos mode is on, and the screen
      shakes only while an un-shake is pending. */
  ghost predicate Inv(s: State) {
    (s.spawner.Some? <==> s.chaosMode) &&
    (s.shaker.Some? <==> s.chaosMode) &&
    (s.shake ==> s.unshakes != [])
  }

  lemma InitInv(chaosMode: bool, now: int)
    ensures Inv(Init(chaosMode, now)) && Init(chaosMode, now).elements == []
  {
  }

  lemma {:induction false} InvPreserved(s: State, evs: seq<Event>)
    requires Inv(s) && EventsOk(evs)
    ensures Inv(Run(s, evs))
    decreases |evs|
  {
    if evs != [] {
      InvPreserved(Step(s, evs[0]), evs[1..]);
    }
  }

  /** Turning chaos mode off stops the spawning but clears nothing: the
      elements and their removals stay, and so does a shake in progress. */
  lemma OffKeepsElements(s: State, now: int)
    requires Inv(s) && s.chaosMode
    ensures var r := SetChaos(s, false, now);
      r.elements == s.elements && r.removals == s.removals && r.shake == s.shake &&
      r.spawner.None? && r.shaker.None? && Inv(r)
  {
  }

  /** While chaos mode stays off, nothing is spawned and the screen does not
      start shaking: the element list only shrinks. */
  lemma {:induction false} QuietWhileOff(s: State, evs: seq<Event>)
    requires Inv(s) && !s.chaosMode && !s.shake && EventsOk(evs)
    requires forall i :: 0 <= i < |evs| ==> !evs[i].ChaosAt?
    ensures var r := Run(s, evs);
      |r.elements| <= |s.elements| && !r.shake && !r.chaosMode && Inv(r)
    decreases |evs|
  {
    if evs != [] {
      var t := Step(s, evs[0]);
      QuietWhileOff(t, evs[1..]);
    }
  }

  /** No element outlives its timer: every element on screen still has a
      pending removal carrying its id. */
  ghost predicate Covered(s: State) {
    forall i :: 0 <= i < |s.elements| ==> s.elements[i].id in KeySet(s.removals, RemovalId)
  }

  lemma {:induction false} CoveredPreserved(s: State, e: Event)
    requires Covered(s) && EventOk(e)
    ensures Covered(Step(s, e))
  {
    var r := Step(s, e);
    forall i | 0 <= i < |r.elements|
      ensures r.elements[i].id in KeySet(r.removals, RemovalId)
    {
      var x := r.elements[i];
      match e
      case SpawnAt(now, d, w, h) =>
        if s.spawner.Some? && s.spawner.value.due <= now {
          KeySetAppend(s.removals, [Removal(s.nextHandle, now + LifetimeMs, NewElement(now, d, w, h).id)], RemovalId);
          if i < |s.elements| {
            assert x == s.elements[i];
          }
        }
      case RemovalAt(now) =>
        if s.removals != [] && s.removals[0].due <= now {
          assert x in r.elements;
          var j :| 0 <= j < |s.elements| && s.elements[j] == x;
          assert x.id in KeySet(s.removals, RemovalId) && x.id != s.removals[0].id;
        }
      case _ =>
    }
  }

  lemma {:induction false} NoElementOutlivesItsTimer(s: State, evs: seq<Event>)
    requires Covered(s) && EventsOk(evs)
    ensures Covered(Run(s, evs))
    decreases |evs|
  {
    if evs != [] {
      CoveredPreserved(s, evs[0]);
      NoElementOutlivesItsTimer(Step(s, evs[0]), evs[1..]);
    }
  }

  /** A shake lasts 200 ms: from chaos on at 0, the screen shakes at 3000
      and is still again at 3200. */
  lemma ShakeLastsTwoHundredMs()
    ensures Run(Init(true, 0), [ShakeAt(3000)]).shake
    ensures !Run(Init(true, 0), [ShakeAt(3000), UnshakeAt(3200)]).shake
  {
    var evs := [ShakeAt(3000), UnshakeAt(3200)];
    assert evs[1..] == [UnshakeAt(3200)];
    assert Run(Init(true, 0), evs) == Run(Shake(Init(true, 0), 3000), evs[1..]);
  }

  /** The component instance, updated in place. */
  class Effects {
    var chaosMode: bool
    var elements: seq<Element>
    var removals: seq<Removal>
    var spawner: Option<Interval>
    var shake: bool
    var shaker: Option<Interval>
    var unshakes: seq<Unshake>
    var nextHandle: nat

    function Snapshot(): State
      reads this
    {
      State(chaosMode, elements, removals, spawner, shake, shaker, unshakes, nextHandle)
    }

    constructor (chaosMode: bool, now: int)
      ensures Snapshot() == Init(chaosMode, now)
    {
      this.chaosMode := chaosMode;
      elements, removals, shake, unshakes := [], [], false, [];
      if chaosMode {
        spawner, shaker := Some(Interval(1, now + SpawnMs)), Some(Interval(2, now + ShakeEveryMs));
        nextHandle := 3;
      } else {
        spawner, shaker, nextHandle := None, None, 1;
      }
    }

    /** A render with a new `chaosMode` prop and the two effects. */
    method ChaosChanged(chaosMode: bool, now: int)
      modifies this
      ensures Snapshot() == SetChaos(old(Snapshot()), chaosMode, now)
    {
      if chaosMode == this.chaosMode {
        return;
      }
      this.chaosMode := chaosMode;
      if chaosMode {
        spawner := Some(Interval(nextHandle, now + SpawnMs));
        shaker := Some(Interval(nextHandle + 1, now + ShakeEveryMs));
        nextHandle := nextHandle + 2;
      } else {
        spawner, shaker := None, None;
      }
    }

    method SpawnTick(now: int, d: ElementDraws, w: real, h: real)
      requires DrawsOk(d)
      modifies this
      ensures Snapshot() == Spawn(old(Snapshot()), now, d, w, h)
    {
      if spawner.Some? && spawner.value.due <= now {
        var e := NewElement(now, d, w, h);
        elements := elements + [e];
        removals := removals + [Removal(nextHandle, now + LifetimeMs, e.id)];
        spawner := Some(spawner.value.(due := spawner.value.due + SpawnMs));
        nextHandle := nextHandle + 1;
      }
    }

    method RemovalTick(now: int)
      modifies this
      ensures Snapshot() == Expire(old(Snapshot()), now)
    {
      if removals != [] && removals[0].due <= now {
        elements := Without(elements, ElementId, removals[0].id);
        removals := removals[1..];
      }
    }

    method ShakeTick(now: int)
      modifies this
      ensures Snapshot() == Shake(old(Snapshot()), now)
    {
      if shaker.Some? && shaker.value.due <= now {
        shake := true;
        unshakes := unshakes + [Unshake(nextHandle, now + ShakeMs)];
        shaker := Some(shaker.value.(due := shaker.value.due + ShakeEveryMs));
        nextHandle := nextHandle + 1;
      }
    }

    method UnshakeTick(now: int)
      modifies this
      ensures Snapshot() == Unshaken(old(Snapshot()), now)
    {
      if unshakes != [] && unshakes[0].due <= now {
        shake := false;
        unshakes := unshakes[1..];
      }
    }
  }
}
