/** `InteractiveShapes`: a field of randomly placed shapes. While the section
    is in view it generates 12 (chaos) or 8 shapes; a click re-places one shape
    and toggles its scale; on every render each shape is pulled toward the
    pointer by an influence that fades with distance. */
module InteractiveShapes {
  import opened Common

  /** One entry of `shapeConfig.shapeTypes`. */
  datatype ShapeType = ShapeType(name: string, borderRadius: string)

  const ShapeTypes: seq<ShapeType> := [
    ShapeType("circle", "50%"),
    ShapeType("square", "0px"),
    ShapeType("rounded-square", "20px"),
    ShapeType("pill", "100px")
  ]

  const Colors: seq<string> := [
    "linear-gradient(45deg, #ff6b6b, #ee5a6f)",
    "linear-gradient(45deg, #4ecdc4, #44a08d)",
    "linear-gradient(45deg, #45b7d1, #96c93d)",
    "linear-gradient(45deg, #feca57, #ff9ff3)",
    "linear-gradient(45deg, #fd79a8, #fdcb6e)"
  ]

  /** `shapeConfig.count`: fewer shapes outside chaos mode. */
  function ShapeCount(chaosMode: bool): nat {
    if chaosMode then 12 else 8
  }

  /** The CSS filter of a shape: a random hue rotation in chaos mode, 'none' otherwise. */
  datatype Filter = NoFilter | HueRotate(degrees: real)

  datatype Shape = Shape(id: nat, kind: ShapeType, width: real, height: real, x: real, y: real,
                         background: string, scale: real, rotationSpeed: real, filter: Filter)

  /** The `Math.random()` values one loop iteration of `generateShapes` draws. */
  datatype ShapeDraws = ShapeDraws(kind: real, size: real, x: real, y: real, colour: real, spin: real, hue: real)

  predicate DrawsOk(d: ShapeDraws) {
    IsDraw(d.kind) && IsDraw(d.size) && IsDraw(d.x) && IsDraw(d.y) &&
    IsDraw(d.colour) && IsDraw(d.spin) && IsDraw(d.hue)
  }

  /** The shape pushed by iteration `i` in a `w` x `h` window. */
  function NewShape(i: nat, d: ShapeDraws, chaosMode: bool, w: real, h: real): (s: Shape)
    requires DrawsOk(d)
    ensures s.id == i && s.scale == 1.0
    ensures 40.0 <= s.width < 120.0 && s.height == s.width
    ensures w - s.width > 0.0 ==> 0.0 <= s.x < w - s.width
    ensures h - s.height > 0.0 ==> 0.0 <= s.y < h - s.height
    ensures -1.0 <= s.rotationSpeed < 1.0
    ensures s.kind in ShapeTypes && s.background in Colors
    ensures chaosMode ==> s.filter.HueRotate? && 0.0 <= s.filter.degrees < 360.0
    ensures !chaosMode ==> s.filter == NoFilter
  {
    var size := Scale(d.size, 80.0) + 40.0;
    Shape(i, ShapeTypes[PickIndex(d.kind, |ShapeTypes|)], size, size,
          Scale(d.x, w - size), Scale(d.y, h - size),
          Colors[PickIndex(d.colour, |Colors|)], 1.0, (d.spin - 0.5) * 2.0,
          if chaosMode then HueRotate(Scale(d.hue, 360.0)) else NoFilter)
  }

  /** The loop of `generateShapes`: push `count` shapes with ids 0..count-1. */
  method BuildShapes(chaosMode: bool, draws: seq<ShapeDraws>, w: real, h: real) returns (shapes: seq<Shape>)
    requires |draws| == ShapeCount(chaosMode)
    requires forall i :: 0 <= i < |draws| ==> DrawsOk(draws[i])
    ensures |shapes| == ShapeCount(chaosMode)
    ensures forall i :: 0 <= i < |shapes| ==> shapes[i] == NewShape(i, draws[i], chaosMode, w, h)
    ensures forall i :: 0 <= i < |shapes| ==> shapes[i].id == i && shapes[i].scale == 1.0
  {
    shapes := [];
    var i := 0;
    while i < ShapeCount(chaosMode)
      invariant 0 <= i <= ShapeCount(chaosMode)
      invariant |shapes| == i
      invariant forall k :: 0 <= k < i ==> shapes[k] == NewShape(k, draws[k], chaosMode, w, h)
    {
      shapes := shapes + [NewShape(i, draws[i], chaosMode, w, h)];
      i := i + 1;
    }
  }

  /** The draws `handleShapeClick` makes for the shape at each index (only the
      clicked shape's are used). */
  predicate ClickDrawsOk(shapes: seq<Shape>, draws: seq<Point>) {
    |draws| == |shapes| && forall i :: 0 <= i < |draws| ==> IsDraw(draws[i].x) && IsDraw(draws[i].y)
  }

  /** `handleShapeClick(shapeId)`: the `prev.map(...)` over the shape list. */
  function ClickShape(shapes: seq<Shape>, id: nat, draws: seq<Point>, w: real, h: real): (r: seq<Shape>)
    requires ClickDrawsOk(shapes, draws)
    ensures |r| == |shapes|
    ensures forall i :: 0 <= i < |r| ==> r[i].id == shapes[i].id
    ensures forall i :: 0 <= i < |r| && shapes[i].id != id ==> r[i] == shapes[i]
    ensures forall i :: 0 <= i < |r| && shapes[i].id == id ==>
      r[i].scale == (if shapes[i].scale == 1.0 then 1.3 else 1.0) &&
      r[i] == shapes[i].(x := r[i].x, y := r[i].y, scale := r[i].scale) &&
      (w - shapes[i].width > 0.0 ==> 0.0 <= r[i].x < w - shapes[i].width) &&
      (h - shapes[i].height > 0.0 ==> 0.0 <= r[i].y < h - shapes[i].height)
  {
    seq(|shapes|, i requires 0 <= i < |shapes| =>
      var s := shapes[i];
      if s.id == id then
        s.(x := Scale(draws[i].x, w - s.width), y := Scale(draws[i].y, h - s.height),
           scale := if s.scale == 1.0 then 1.3 else 1.0)
      else s)
  }

  /** Scales stay in {1, 1.3}: generation gives 1 and every click toggles
      between the two. */
  predicate ScalesToggled(shapes: seq<Shape>) {
    forall i :: 0 <= i < |shapes| ==> shapes[i].scale == 1.0 || shapes[i].scale == 1.3
  }

  /** Clicking the same shape twice puts its scale back. */
  lemma {:induction false} DoubleClickRestoresScale(shapes: seq<Shape>, id: nat, d1: seq<Point>, d2: seq<Point>, w: real, h: real)
    requires ScalesToggled(shapes)
    requires ClickDrawsOk(shapes, d1) && ClickDrawsOk(shapes, d2)
    ensures var r := ClickShape(ClickShape(shapes, id, d1, w, h), id, d2, w, h);
      ScalesToggled(r) && forall i :: 0 <= i < |r| ==> r[i].scale == shapes[i].scale && r[i].id == shapes[i].id
  {
    var r1 := ClickShape(shapes, id, d1, w, h);
    assert ClickDrawsOk(r1, d2);
    var r := ClickShape(r1, id, d2, w, h);
    forall i | 0 <= i < |r|
      ensures r[i].scale == shapes[i].scale && r[i].id == shapes[i].id
    {
      if shapes[i].id == id {
        assert r1[i].id == id;
      }
    }
  }

  /** `maxDistance`: the pointer's reach. */
  function MaxDistance(chaosMode: bool): real {
    if chaosMode then 250.0 else 200.0
  }

  /** `intensityMultiplier`: the largest fraction of the way to the pointer. */
  function Intensity(chaosMode: bool): real {
    if chaosMode then 0.2 else 0.1
  }

  /** The largest extra scale at full influence. */
  function ScaleBoost(chaosMode: bool): real {
    if chaosMode then 0.4 else 0.2
  }

  /** Degrees of rotation per unit of `rotationSpeed` at full influence. */
  function Spin(chaosMode: bool): real {
    if chaosMode then 180.0 else 90.0
  }

  /** `d` is the Euclidean distance (`Math.sqrt` of the squared offsets)
      between the pointer and the shape's corner. */
  predicate IsDistance(d: real, s: Shape, mouse: Point) {
    d >= 0.0 && d * d == (mouse.x - s.x) * (mouse.x - s.x) + (mouse.y - s.y) * (mouse.y - s.y)
  }

  /** `Math.max(0, maxDistance - distance) / maxDistance`. */
  function Influence(d: real, chaosMode: bool): (f: real)
    requires d >= 0.0
    ensures 0.0 <= f <= 1.0
    ensures f == 0.0 <==> d >= MaxDistance(chaosMode)
    ensures d == 0.0 ==> f == 1.0
  {
    var m := MaxDistance(chaosMode);
    (if m - d > 0.0 then m - d else 0.0) / m
  }

  /** The influence fades as the pointer moves away. */
  lemma InfluenceFades(d1: real, d2: real, chaosMode: bool)
    requires 0.0 <= d1 <= d2
    ensures Influence(d2, chaosMode) <= Influence(d1, chaosMode)
  {
    var m := MaxDistance(chaosMode);
    var a := if m - d1 > 0.0 then m - d1 else 0.0;
    var b := if m - d2 > 0.0 then m - d2 else 0.0;
    assert b <= a;
    assert b / m <= a / m;
  }

  /** The animation target rendered for one shape. */
  datatype Pose = Pose(x: real, y: real, rotate: real, scale: real)

  /** The `animate` values of a shape with the pointer at `mouse`, `d` away. */
  function Target(s: Shape, mouse: Point, chaosMode: bool, d: real): (p: Pose)
    requires IsDistance(d, s, mouse)
    ensures Toward(s.x, p.x, mouse.x, Intensity(chaosMode))
    ensures Toward(s.y, p.y, mouse.y, Intensity(chaosMode))
    ensures s.scale <= p.scale <= s.scale + ScaleBoost(chaosMode)
    ensures -Spin(chaosMode) * Abs(s.rotationSpeed) <= p.rotate <= Spin(chaosMode) * Abs(s.rotationSpeed)
    ensures d >= MaxDistance(chaosMode) ==> p == Pose(s.x, s.y, 0.0, s.scale)
  {
    PoseAt(s, mouse, chaosMode, Influence(d, chaosMode))
  }

  /** The pose at influence `f`. */
  function PoseAt(s: Shape, mouse: Point, chaosMode: bool, f: real): (p: Pose)
    requires 0.0 <= f <= 1.0
    ensures Toward(s.x, p.x, mouse.x, Intensity(chaosMode))
    ensures Toward(s.y, p.y, mouse.y, Intensity(chaosMode))
    ensures s.scale <= p.scale <= s.scale + ScaleBoost(chaosMode)
    ensures -Spin(chaosMode) * Abs(s.rotationSpeed) <= p.rotate <= Spin(chaosMode) * Abs(s.rotationSpeed)
    ensures f == 0.0 ==> p == Pose(s.x, s.y, 0.0, s.scale)
  {
    Pose(Displace(s.x, mouse.x, f, Intensity(chaosMode)), Displace(s.y, mouse.y, f, Intensity(chaosMode)),
         Turn(s.rotationSpeed, f, Spin(chaosMode)), Grow(s.scale, f, ScaleBoost(chaosMode)))
  }

  /** `from + (target - from) * influence * intensity`: at most fraction `k`
      of the way toward the target. */
  function Displace(from: real, target: real, f: real, k: real): (v: real)
    requires 0.0 <= f <= 1.0 && 0.0 <= k <= 1.0
    ensures Toward(from, v, target, k)
    ensures f == 0.0 ==> v == from
  {
    Fraction(f, k);
    Pull(from, target, f * k, k);
    from + (target - from) * (f * k)
  }

  /** `rotationSpeed * influence * spin`: within `spin` times the speed either way. */
  function Turn(v: real, f: real, c: real): (r: real)
    requires 0.0 <= f <= 1.0 && c > 0.0
    ensures -c * Abs(v) <= r <= c * Abs(v)
    ensures f == 0.0 ==> r == 0.0
  {
    SpinBound(v, f, c);
    v * f * c
  }

  /** `scale + influence * boost`: between the scale and the scale plus the boost. */
  function Grow(scale: real, f: real, boost: real): (r: real)
    requires 0.0 <= f <= 1.0 && boost >= 0.0
    ensures scale <= r <= scale + boost
    ensures f == 0.0 ==> r == scale
  {
    Fraction(f, boost);
    scale + f * boost
  }

  lemma Fraction(f: real, c: real)
    requires 0.0 <= f <= 1.0 && c >= 0.0
    ensures 0.0 <= f * c <= c
    ensures f == 0.0 ==> f * c == 0.0
  {
    MulNonNeg(f, c);
    MulLe(c, f, 1.0);
    assert c * f == f * c;
  }

  function Abs(x: real): real {
    if x < 0.0 then -x else x
  }

  lemma SpinBound(v: real, f: real, c: real)
    requires 0.0 <= f <= 1.0 && c > 0.0
    ensures -c * Abs(v) <= v * f * c <= c * Abs(v)
    ensures f == 0.0 ==> v * f * c == 0.0
  {
    if v >= 0.0 {
      SpinUp(v, f, c);
    } else {
      SpinDown(v, f, c);
    }
  }

  lemma SpinUp(v: real, f: real, c: real)
    requires 0.0 <= f <= 1.0 && c > 0.0 && v >= 0.0
    ensures 0.0 <= v * f * c <= c * v
  {
    MulNonNeg(v, f);
    MulLe(v, f, 1.0);
    MulNonNeg(v * f, c);
    MulLe(c, v * f, v);
  }

  lemma SpinDown(v: real, f: real, c: real)
    requires 0.0 <= f <= 1.0 && c > 0.0 && v < 0.0
    ensures -c * (-v) <= v * f * c <= 0.0
  {
    SpinUp(-v, f, c);
    Negate(v, f);
    Negate(v * f, c);
    Negate(c, -v);
  }

  /** A pointer farther than `maxDistance` along either axis does not move
      the shape at all. */
  lemma {:induction false} FarPointerLeavesShape(s: Shape, mouse: Point, chaosMode: bool, d: real)
    requires IsDistance(d, s, mouse)
    requires Abs(mouse.x - s.x) >= MaxDistance(chaosMode) || Abs(mouse.y - s.y) >= MaxDistance(chaosMode)
    ensures Target(s, mouse, chaosMode, d) == Pose(s.x, s.y, 0.0, s.scale)
  {
    var m := MaxDistance(chaosMode);
    var dx := mouse.x - s.x;
    var dy := mouse.y - s.y;
    assert dx * dx >= 0.0 && dy * dy >= 0.0;
    if Abs(dx) >= m {
      SquareMono(m, Abs(dx));
      assert Abs(dx) * Abs(dx) == dx * dx;
    } else {
      SquareMono(m, Abs(dy));
      assert Abs(dy) * Abs(dy) == dy * dy;
    }
    assert d * d >= m * m;
    if d < m {
      SquareStrict(d, m);
    }
  }

  lemma SquareMono(a: real, b: real)
    requires 0.0 <= a <= b
    ensures a * a <= b * b
  {
    assert b * b - a * a == (b - a) * (b + a);
    assert (b - a) * (b + a) >= 0.0;
  }

  lemma SquareStrict(a: real, b: real)
    requires 0.0 <= a < b
    ensures a * a < b * b
  {
    var u, v := b - a, b + a;
    assert u > 0.0 && v > 0.0;
    assert u * v > 0.0;
    assert b * b - a * a == u * v;
  }

  /** The render: every shape's target while in view, nothing otherwise. */
  function Render(isInView: bool, shapes: seq<Shape>, mouse: Point, chaosMode: bool, dists: seq<real>): (poses: seq<Pose>)
    requires |dists| == |shapes| && forall i :: 0 <= i < |shapes| ==> IsDistance(dists[i], shapes[i], mouse)
    ensures !isInView ==> poses == []
    ensures isInView ==> |poses| == |shapes|
    ensures isInView ==> forall i :: 0 <= i < |poses| ==> poses[i] == Target(shapes[i], mouse, chaosMode, dists[i])
    ensures isInView ==>
      forall i :: 0 <= i < |poses| ==> shapes[i].scale <= poses[i].scale <= shapes[i].scale + ScaleBoost(chaosMode)
  {
    if !isInView then []
    else seq(|shapes|, i requires 0 <= i < |shapes| => Target(shapes[i], mouse, chaosMode, dists[i]))
  }

  /** The component's `shapes` state, replaced by `setShapes`. */
  class ShapesView {
    var shapes: seq<Shape>

    constructor ()
      ensures shapes == []
    {
      shapes := [];
    }

    /** `generateShapes`, run by the effect and by the window's resize listener. */
    method GenerateShapes(isInView: bool, chaosMode: bool, draws: seq<ShapeDraws>, w: real, h: real)
      requires |draws| == ShapeCount(chaosMode)
      requires forall i :: 0 <= i < |draws| ==> DrawsOk(draws[i])
      modifies this
      ensures !isInView ==> shapes == old(shapes)
      ensures isInView ==> |shapes| == ShapeCount(chaosMode)
      ensures isInView ==>
        forall i :: 0 <= i < |shapes| ==> shapes[i] == NewShape(i, draws[i], chaosMode, w, h)
    {
      if !isInView {
        return;
      }
      shapes := BuildShapes(chaosMode, draws, w, h);
    }

    method HandleShapeClick(id: nat, draws: seq<Point>, w: real, h: real)
      requires ClickDrawsOk(shapes, draws)
      modifies this
      ensures shapes == ClickShape(old(shapes), id, draws, w, h)
    {
      shapes := ClickShape(shapes, id, draws, w, h);
    }
  }
}
