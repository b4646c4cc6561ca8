/** `HeroSection`: the landing section. On mount it scatters 15 translucent
    shapes over the window (again on every resize), follows the pointer with
    an unthrottled `mousemove` listener, animates each shape 10% of the way
    toward the pointer, and re-scatters the shapes when its button is clicked. */
module HeroSection {
  import opened Common

  const ShapeCount: nat := 15

  const Colors: seq<string> := [
    "rgba(255, 107, 107, 0.6)",
    "rgba(78, 205, 196, 0.6)",
    "rgba(69, 183, 209, 0.6)",
    "rgba(254, 202, 87, 0.6)",
    "rgba(255, 159, 243, 0.6)"
  ]

  datatype HeroShape = HeroShape(id: nat, size: real, x: real, y: real, color: string, rounded: bool)

  /** The `Math.random()` values one iteration of `generateShapes` draws. */
  datatype ShapeDraws = ShapeDraws(size: real, x: real, y: real, color: real, round: real)

  predicate DrawsOk(d: ShapeDraws) {
    IsDraw(d.size) && IsDraw(d.x) && IsDraw(d.y) && IsDraw(d.color) && IsDraw(d.round)
  }

  /** The shape pushed by iteration `i` in a `w` x `h` window. */
  function NewShape(i: nat, d: ShapeDraws, w: real, h: real): (s: HeroShape)
    requires DrawsOk(d)
    ensures s.id == i
    ensures 20.0 <= s.size < 120.0
    ensures w > 0.0 ==> 0.0 <= s.x < w
    ensures h > 0.0 ==> 0.0 <= s.y < h
    ensures s.color in Colors
    ensures s.rounded <==> d.round > 0.5
  {
    HeroShape(i, Scale(d.size, 100.0) + 20.0, Scale(d.x, w), Scale(d.y, h),
              Colors[PickIndex(d.color, 5)], d.round > 0.5)
  }

  predicate AllDrawsOk(draws: seq<ShapeDraws>) {
    forall i :: 0 <= i < |draws| ==> DrawsOk(draws[i])
  }

  /** `generateShapes`: a loop pushing 15 shapes with ids 0..14. */
  method BuildShapes(draws: seq<ShapeDraws>, w: real, h: real) returns (shapes: seq<HeroShape>)
    requires |draws| == ShapeCount && AllDrawsOk(draws)
    ensures |shapes| == ShapeCount
    ensures forall i :: 0 <= i < |shapes| ==> shapes[i] == NewShape(i, draws[i], w, h)
  {
    shapes := [];
    var i := 0;
    while i < ShapeCount
      invariant 0 <= i <= ShapeCount
      invariant |shapes| == i
      invariant forall k :: 0 <= k < i ==> shapes[k] == NewShape(k, draws[k], w, h)
    {
      shapes := shapes + [NewShape(i, draws[i], w, h)];
      i := i + 1;
    }
  }

  /** The same 15 shapes, as a value (the specification of the loop above). */
  function Generated(draws: seq<ShapeDraws>, w: real, h: real): (shapes: seq<HeroShape>)
    requires |draws| == ShapeCount && AllDrawsOk(draws)
    ensures |shapes| == ShapeCount
    ensures forall i :: 0 <= i < |shapes| ==> shapes[i].id == i && 20.0 <= shapes[i].size < 120.0
  {
    seq(ShapeCount, i requires 0 <= i < ShapeCount => NewShape(i, draws[i], w, h))
  }

  /** The `Math.random()` values `handleChaosMode` draws for one shape. */
  datatype ScatterDraws = ScatterDraws(x: real, y: real, size: real)

  predicate ScatterOk(d: ScatterDraws) {
    IsDraw(d.x) && IsDraw(d.y) && IsDraw(d.size)
  }

  /** `handleChaosMode`: every shape gets a new position and size; nothing
      else about it changes. */
  function Scatter(shapes: seq<HeroShape>, draws: nat -> ScatterDraws, w: real, h: real): (r: seq<HeroShape>)
    requires forall i: nat :: ScatterOk(draws(i))
    ensures |r| == |shapes|
    ensures forall i :: 0 <= i < |r| ==>
      r[i].id == shapes[i].id && r[i].color == shapes[i].color && r[i].rounded == shapes[i].rounded
    ensures forall i :: 0 <= i < |r| ==> 30.0 <= r[i].size < 180.0
    ensures forall i :: 0 <= i < |r| ==> (w > 0.0 ==> 0.0 <= r[i].x < w) && (h > 0.0 ==> 0.0 <= r[i].y < h)
  {
    var r := seq(|shapes|, i requires 0 <= i < |shapes| => Moved(shapes[i], draws(i as nat), w, h));
    assert forall i :: 0 <= i < |r| ==> ScatterOk(draws(i as nat)) && r[i] == Moved(shapes[i], draws(i as nat), w, h);
    r
  }

  /** One shape of `handleChaosMode`: new position and size. */
  function Moved(s: HeroShape, d: ScatterDraws, w: real, h: real): (r: HeroShape)
    requires ScatterOk(d)
    ensures r.id == s.id && r.color == s.color && r.rounded == s.rounded
    ensures 30.0 <= r.size < 180.0
    ensures (w > 0.0 ==> 0.0 <= r.x < w) && (h > 0.0 ==> 0.0 <= r.y < h)
  {
    s.(x := Scale(d.x, w), y := Scale(d.y, h), size := Scale(d.size, 150.0) + 30.0)
  }

  /** The second keyframe of a shape's `x`/`y` animation: 10% of the way
      from the shape to the pointer. */
  function FollowTarget(s: HeroShape, mouse: Point): (p: Point)
    ensures mouse.x - p.x == 0.9 * (mouse.x - s.x) && mouse.y - p.y == 0.9 * (mouse.y - s.y)
    ensures Toward(s.x, p.x, mouse.x, 0.1) && Toward(s.y, p.y, mouse.y, 0.1)
  {
    Pull(s.x, mouse.x, 0.1, 0.1);
    Pull(s.y, mouse.y, 0.1, 0.1);
    Point(s.x + (mouse.x - s.x) * 0.1, s.y + (mouse.y - s.y) * 0.1)
  }

  /** The two window listeners the mount effect registers. */
  datatype Listener = OnResize | OnMouseMove

  /** `shapes` and `mousePosition` state and the registered listeners. */
  datatype State = State(shapes: seq<HeroShape>, mouse: Point, listeners: set<Listener>)

  function Init(): State {
    State([], Point(0.0, 0.0), {})
  }

  /** The mount effect: generate, then register both listeners. */
  function Mount(s: State, draws: seq<ShapeDraws>, w: real, h: real): (r: State)
    requires |draws| == ShapeCount && AllDrawsOk(draws)
    ensures r.shapes == Generated(draws, w, h) && r.listeners == s.listeners + {OnResize, OnMouseMove}
    ensures r.mouse == s.mouse
  {
    State(Generated(draws, w, h), s.mouse, s.listeners + {OnResize, OnMouseMove})
  }

  /** A window resize: regenerates while the listener is registered. */
  function Resize(s: State, draws: seq<ShapeDraws>, w: real, h: real): (r: State)
    requires |draws| == ShapeCount && AllDrawsOk(draws)
    ensures OnResize in s.listeners ==> r == s.(shapes := Generated(draws, w, h))
    ensures OnResize !in s.listeners ==> r == s
  {
    if OnResize in s.listeners then s.(shapes := Generated(draws, w, h)) else s
  }

  /** `handleMouseMove`: the client coordinates, with no throttling. */
  function MouseMove(s: State, client: Point): (r: State)
    ensures OnMouseMove in s.listeners ==> r.mouse == client
    ensures OnMouseMove !in s.listeners ==> r == s
    ensures r.shapes == s.shapes && r.listeners == s.listeners
  {
    if OnMouseMove in s.listeners then s.(mouse := client) else s
  }

  /** The mount effect's cleanup: both listeners removed. */
  function Unmount(s: State): (r: State)
    ensures r.listeners == {}
    ensures r.shapes == s.shapes && r.mouse == s.mouse
  {
    s.(listeners := {})
  }

  datatype Event = MountAt(draws: seq<ShapeDraws>, w: real, h: real)
                 | ResizeTo(draws: seq<ShapeDraws>, w: real, h: real)
                 | MoveTo(client: Point)
                 | ChaosClick(scatter: nat -> ScatterDraws, w: real, h: real)
                 | UnmountNow

  ghost predicate EventOk(e: Event) {
    match e
    case MountAt(draws, _, _) => |draws| == ShapeCount && AllDrawsOk(draws)
    case ResizeTo(draws, _, _) => |draws| == ShapeCount && AllDrawsOk(draws)
    case ChaosClick(scatter, _, _) => forall i: nat :: ScatterOk(scatter(i))
    case _ => true
  }

  ghost predicate EventsOk(evs: seq<Event>) {
    forall i :: 0 <= i < |evs| ==> EventOk(evs[i])
  }

  function Step(s: State, e: Event): State
    requires EventOk(e)
  {
    match e
    case MountAt(draws, w, h) => Mount(s, draws, w, h)
    case ResizeTo(draws, w, h) => Resize(s, draws, w, h)
    case MoveTo(client) => MouseMove(s, client)
    case ChaosClick(scatter, w, h) => s.(shapes := Scatter(s.shapes, scatter, w, h))
    case UnmountNow => Unmount(s)
  }

  function Run(s: State, evs: seq<Event>): State
    requires EventsOk(evs)
    decreases |evs|
  {
    if evs == [] then s else Run(Step(s, evs[0]), evs[1..])
  }

  /** The shape list is empty or holds 15 shapes with ids 0..14 in order,
      each sized within [20, 180). */
  ghost predicate ShapesOk(shapes: seq<HeroShape>) {
    (shapes == [] || |shapes| == ShapeCount) &&
    forall i :: 0 <= i < |shapes| ==> shapes[i].id == i && 20.0 <= shapes[i].size < 180.0 && shapes[i].color in Colors
  }

  /** Whatever mounts, resizes, moves and clicks happen, the list keeps its
      ids, count, palette and size range. */
  lemma {:induction false} ShapesStayWellFormed(s: State, evs: seq<Event>)
    requires ShapesOk(s.shapes) && EventsOk(evs)
    ensures ShapesOk(Run(s, evs).shapes)
    decreases |evs|
  {
    if evs != [] {
      var t := Step(s, evs[0]);
      if evs[0].MountAt? || evs[0].ResizeTo? {
        GeneratedColors(evs[0].draws, evs[0].w, evs[0].h);
      }
      ShapesStayWellFormed(t, evs[1..]);
    }
  }

  lemma GeneratedColors(draws: seq<ShapeDraws>, w: real, h: real)
    requires |draws| == ShapeCount && AllDrawsOk(draws)
    ensures forall i :: 0 <= i < ShapeCount ==> Generated(draws, w, h)[i].color in Colors
  {
    forall i | 0 <= i < ShapeCount
      ensures Generated(draws, w, h)[i].color in Colors
    {
      assert Generated(draws, w, h)[i] == NewShape(i, draws[i], w, h);
    }
  }

  /** After the cleanup no resize and no pointer move reaches the section. */
  lemma {:induction false} DeafAfterUnmount(s: State, evs: seq<Event>)
    requires EventsOk(evs) && s.listeners == {}
    requires forall i :: 0 <= i < |evs| ==> evs[i].ResizeTo? || evs[i].MoveTo?
    ensures Run(s, evs) == s
    decreases |evs|
  {
    if evs != [] {
      DeafAfterUnmount(Step(s, evs[0]), evs[1..]);
    }
  }

  /** The component instance, updated in place. */
  class Hero {
    var shapes: seq<HeroShape>
    var mouse: Point
    var listeners: set<Listener>

    function Snapshot(): State
      reads this
    {
      State(shapes, mouse, listeners)
    }

    constructor ()
      ensures Snapshot() == Init()
    {
      shapes, mouse, listeners := [], Point(0.0, 0.0), {};
    }

    method MountEffect(draws: seq<ShapeDraws>, w: real, h: real)
      requires |draws| == ShapeCount && AllDrawsOk(draws)
      modifies this
      ensures Snapshot() == Mount(old(Snapshot()), draws, w, h)
    {
      shapes := BuildShapes(draws, w, h);
      listeners := listeners + {OnResize, OnMouseMove};
    }

    method WindowResize(draws: seq<ShapeDraws>, w: real, h: real)
      requires |draws| == ShapeCount && AllDrawsOk(draws)
      modifies this
      ensures Snapshot() == Resize(old(Snapshot()), draws, w, h)
    {
      if OnResize in listeners {
        shapes := BuildShapes(draws, w, h);
      }
    }

    method HandleMouseMove(client: Point)
      modifies this
      ensures Snapshot() == MouseMove(old(Snapshot()), client)
    {
      if OnMouseMove in listeners {
        mouse := client;
      }
    }

    method HandleChaosMode(draws: nat -> ScatterDraws, w: real, h: real)
      requires forall i: nat :: ScatterOk(draws(i))
      modifies this
      ensures shapes == Scatter(old(shapes), draws, w, h)
      ensures mouse == old(mouse) && listeners == old(listeners)
    {
      shapes := Scatter(shapes, draws, w, h);
    }

    method Cleanup()
      modifies this
      ensures Snapshot() == Unmount(old(Snapshot()))
    {
      listeners := {};
    }
  }
}
