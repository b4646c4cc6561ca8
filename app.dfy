/** `App`: the global chaos mode. It starts off; `toggleChaosMode` flips it;
    a click anywhere on the window turns it on when it is off and arms a 30 s
    `setTimeout` that turns it off again. Nothing ever cancels those timers.
    Also the theme chosen by mode and the custom cursor's offset. */
module App {
  import opened Common

  /** The deactivation delay armed by a click, in ms. */
  const ExpiryMs: int := 30000

  /** A pending `setTimeout(() => setChaosMode(false), 30000)`. */
  datatype Expiry = Expiry(handle: nat, due: int)

  /** `chaosMode`, the pending expiry timers in the order they were armed
      (which is their due order, since all have the same delay), and the
      host's next timer handle. */
  datatype State = State(chaosMode: bool, expiries: seq<Expiry>, nextHandle: nat)

  function Init(): State {
    State(false, [], 1)
  }

  /** `handleClick` at time `now`: `setChaosMode(prev => ...)`. */
  function Click(s: State, now: int): (r: State)
    ensures !s.chaosMode ==> r.chaosMode && r.expiries == s.expiries + [Expiry(s.nextHandle, now + ExpiryMs)]
    ensures s.chaosMode ==> r == s
  {
    if !s.chaosMode then
      s.(chaosMode := true, expiries := s.expiries + [Expiry(s.nextHandle, now + ExpiryMs)],
         nextHandle := s.nextHandle + 1)
    else
      s
  }

  /** `toggleChaosMode`: negate the mode; pending expiries are left alone. */
  function Toggle(s: State): (r: State)
    ensures r.chaosMode != s.chaosMode && r.expiries == s.expiries
  {
    s.(chaosMode := !s.chaosMode)
  }

  /** The host runs the earliest pending expiry once it is due: the mode goes
      off whatever it was and however it was turned on. */
  function Expire(s: State, now: int): (r: State)
    ensures s.expiries != [] && s.expiries[0].due <= now ==> !r.chaosMode && r.expiries == s.expiries[1..]
    ensures !(s.expiries != [] && s.expiries[0].due <= now) ==> r == s
  {
    if s.expiries != [] && s.expiries[0].due <= now then
      s.(chaosMode := false, expiries := s.expiries[1..])
    else
      s
  }

  datatype Event = ClickAt(now: int) | ToggleMode | ExpiryAt(now: int)

  function Step(s: State, e: Event): State {
    match e
    case ClickAt(now) => Click(s, now)
    case ToggleMode => Toggle(s)
    case ExpiryAt(now) => Expire(s, now)
  }

  function Run(s: State, evs: seq<Event>): State
    decreases |evs|
  {
    if evs == [] then s else Run(Step(s, evs[0]), evs[1..])
  }

  /** Two toggles restore the original mode (and everything else). */
  lemma ToggleTwice(s: State)
    ensures Toggle(Toggle(s)) == s
  {
  }

  /** One click activates from off: there is no click counter. */
  lemma OneClickActivates(now: int)
    ensures Click(Init(), now).chaosMode
    ensures Click(Init(), now).expiries == [Expiry(1, now + ExpiryMs)]
  {
  }

  /** Without toggles the mode and the timers stay in step: the mode is on
      exactly when one expiry is pending, and never more than one is. */
  ghost predicate InStep(s: State) {
    |s.expiries| <= 1 && (s.chaosMode <==> |s.expiries| == 1)
  }

  lemma {:induction false} NoToggleKeepsOneTimer(s: State, evs: seq<Event>)
    requires InStep(s)
    requires forall i :: 0 <= i < |evs| ==> !evs[i].ToggleMode?
    ensures InStep(Run(s, evs))
    decreases |evs|
  {
    if evs != [] {
      NoToggleKeepsOneTimer(Step(s, evs[0]), evs[1..]);
    }
  }

  /** Activated by a click at `t0` and never toggled, the mode stays on for
      every event before `t0 + 30000`. */
  lemma {:induction false} StaysOnUntilExpiry(s: State, evs: seq<Event>, due: int)
    requires s.chaosMode && |s.expiries| == 1 && s.expiries[0].due == due
    requires forall i :: 0 <= i < |evs| ==> !evs[i].ToggleMode?
    requires forall i :: 0 <= i < |evs| ==> evs[i].now < due
    ensures Run(s, evs).chaosMode && Run(s, evs).expiries == s.expiries
    decreases |evs|
  {
    if evs != [] {
      assert Step(s, evs[0]) == s;
      StaysOnUntilExpiry(s, evs[1..], due);
    }
  }

  /** ... and the expiry turns it off at `t0 + 30000`. */
  lemma OffAtExpiry(t0: int)
    ensures Run(Init(), [ClickAt(t0), ExpiryAt(t0 + ExpiryMs)]).chaosMode == false
  {
    var evs := [ClickAt(t0), ExpiryAt(t0 + ExpiryMs)];
    assert evs[1..] == [ExpiryAt(t0 + ExpiryMs)];
    assert Run(Init(), evs) == Run(Click(Init(), t0), evs[1..]);
  }

  /** Since toggles never cancel expiries, an old timer ends a later
      activation early: on at 0, toggled off, on again at 20000 by a click,
      and off at 30000, only 10 s into the second activation. */
  lemma StaleExpiryEndsLaterActivation()
    ensures Run(Init(), [ClickAt(0), ToggleMode, ClickAt(20000)]).chaosMode
    ensures !Run(Init(), [ClickAt(0), ToggleMode, ClickAt(20000), ExpiryAt(30000)]).chaosMode
  {
    assert Run(Init(), [ClickAt(0), ToggleMode, ClickAt(20000), ExpiryAt(30000)])
        == Run(Run(Init(), [ClickAt(0), ToggleMode, ClickAt(20000)]), [ExpiryAt(30000)]);
  }

  /** Click-then-toggle, n times: each round leaves one more pending expiry,
      so the number of pending timers is unbounded. */
  function ClickToggle(n: nat, now: int): (evs: seq<Event>)
    ensures |evs| == 2 * n
  {
    if n == 0 then [] else [ClickAt(now), ToggleMode] + ClickToggle(n - 1, now)
  }

  lemma {:induction false} TimersAccumulate(s: State, n: nat, now: int)
    requires !s.chaosMode
    ensures !Run(s, ClickToggle(n, now)).chaosMode
    ensures |Run(s, ClickToggle(n, now)).expiries| == |s.expiries| + n
    decreases n
  {
    if n > 0 {
      var evs := ClickToggle(n, now);
      var t := Toggle(Click(s, now));
      assert evs[0] == ClickAt(now) && evs[1] == ToggleMode;
      assert evs[2..] == ClickToggle(n - 1, now);
      assert Run(s, evs) == Run(Step(Step(s, evs[0]), evs[1]), evs[2..]) by {
        assert evs[1..][0] == evs[1] && evs[1..][1..] == evs[2..];
      }
      TimersAccumulate(t, n - 1, now);
    }
  }

  /** The custom cursor's box: side and glow radius in px. */
  datatype CursorStyle = CursorStyle(width: int, height: int, glow: int)

  /** `CustomCursor`: 40 px in chaos mode, 20 px otherwise, for the width,
      the height and the glow alike, so the round cursor sits in a square
      box with a glow as wide as itself. */
  function Cursor(chaosMode: bool): (c: CursorStyle)
    ensures c.width == c.height == c.glow
    ensures c.width > 0 && c.width % 2 == 0
    ensures c.width == if chaosMode then 2 * Cursor(false).width else Cursor(false).width
  {
    var side := if chaosMode then 40 else 20;
    CursorStyle(side, side, side)
  }

  /** The cursor's animation target: the pointer minus 20 or 10 px, which puts
      the cursor's centre exactly on the pointer. */
  function CursorTarget(pointer: Point, chaosMode: bool): (r: Point)
    ensures r.x + Cursor(chaosMode).width as real / 2.0 == pointer.x
    ensures r.y + Cursor(chaosMode).width as real / 2.0 == pointer.y
  {
    var offset: real := if chaosMode then 20.0 else 10.0;
    Point(pointer.x - offset, pointer.y - offset)
  }

  datatype Colors = Colors(primary: string, secondary: string, accent: string, background: string, text: string)
  datatype Spacing = Spacing(small: string, medium: string, large: string, xlarge: string)
  datatype Breakpoints = Breakpoints(mobile: string, tablet: string, desktop: string)
  datatype Animations = Animations(fast: string, medium: string, slow: string)
  datatype Theme = Theme(colors: Colors, spacing: Spacing, breakpoints: Breakpoints, animations: Animations)

  /** `createTheme(chaosMode)`. */
  function CreateTheme(chaosMode: bool): (t: Theme)
    ensures t.colors.text == "#ffffff"
    ensures t.colors.primary != t.colors.secondary && t.colors.primary != t.colors.accent
    ensures t.colors.secondary != t.colors.accent
    ensures chaosMode ==> t.colors.secondary == CreateTheme(false).colors.primary
  {
    Theme(
      Colors(
        if chaosMode then "#ff6b6b" else "#4ecdc4",
        if chaosMode then "#4ecdc4" else "#45b7d1",
        if chaosMode then "#feca57" else "#ff9ff3",
        if chaosMode then "linear-gradient(45deg, #ff6b6b, #4ecdc4, #feca57, #ff9ff3, #45b7d1)"
        else "linear-gradient(45deg, #000, #1a0033, #000, #330066, #000)",
        "#ffffff"),
      Spacing("0.5rem", "1rem", "2rem", "4rem"),
      Breakpoints("768px", "1024px", "1200px"),
      Animations("0.2s", "0.5s", "1s"))
  }

  /** The mode chooses only the four palette colours: text colour, spacing,
      breakpoints and animation speeds are the same in both modes, and each
      mode-dependent colour tells the modes apart. */
  lemma ThemeDependsOnlyOnPalette(a: bool, b: bool)
    ensures CreateTheme(a).colors.text == "#ffffff"
    ensures CreateTheme(a).spacing == CreateTheme(b).spacing
    ensures CreateTheme(a).breakpoints == CreateTheme(b).breakpoints
    ensures CreateTheme(a).animations == CreateTheme(b).animations
    ensures (CreateTheme(a).colors.primary == CreateTheme(b).colors.primary) == (a == b)
    ensures (CreateTheme(a).colors.background == CreateTheme(b).colors.background) == (a == b)
  {
  }

  /** The `App` component's mode state, updated in place. */
  class ModeController {
    var chaosMode: bool
    var expiries: seq<Expiry>
    var nextHandle: nat

    function Snapshot(): State
      reads this
    {
      State(chaosMode, expiries, nextHandle)
    }

    constructor ()
      ensures Snapshot() == Init()
    {
      chaosMode, expiries, nextHandle := false, [], 1;
    }

    /** `handleClick`, registered as the window's click listener. */
    method HandleClick(now: int)
      modifies this
      ensures Snapshot() == Click(old(Snapshot()), now)
    {
      if !chaosMode {
        expiries := expiries + [Expiry(nextHandle, now + ExpiryMs)];
        nextHandle := nextHandle + 1;
        chaosMode := true;
      }
    }

    method ToggleChaosMode()
      modifies this
      ensures Snapshot() == Toggle(old(Snapshot()))
    {
      chaosMode := !chaosMode;
    }

    /** The host's timer tick at `now`. */
    method ExpiryTick(now: int)
      modifies this
      ensures Snapshot() == Expire(old(Snapshot()), now)
    {
      if expiries != [] && expiries[0].due <= now {
        chaosMode := false;
        expiries := expiries[1..];
      }
    }
  }
}
