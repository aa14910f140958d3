// shapes.go: helpers that add a segment shape to the space together with the
// sprite its draw callback paints (a white or shape-coloured rounded
// rectangle, turned to lie along the segment), and DrawBB's four red lines.
// The image itself, the gg context and the draw callback's transforms are
// rendering and are not modelled; what is kept is the shape added to the
// space and the sizes, offset and turn sign the sprite is built from.
module Shapes {
  import opened Geometry
  import opened Engine
  import opened Grab
  import Mesh

  /** The squared Euclidean distance; Vector.Distance is its square root. */
  function SqDist(a: Vec, b: Vec): real
  {
    (a.x - b.x) * (a.x - b.x) + (a.y - b.y) * (a.y - b.y)
  }

  function Abs(x: real): real { if x < 0.0 then -x else x }

  function Midpoint(a: Vec, b: Vec): Vec
  {
    Vec((a.x + b.x) / 2.0, (a.y + b.y) / 2.0)
  }

  /** Whether d is what Vector.Distance returns for a and b. */
  predicate IsDistance(d: real, a: Vec, b: Vec)
  {
    d >= 0.0 && d * d == SqDist(a, b)
  }

  /**
   * The endpoints AddWall passes to the segment: swapped when needed so the
   * first is never left of the second, which makes every wall's sprite face
   * the same way horizontally.
   */
  function WallEnds(a: Vec, b: Vec): (r: (Vec, Vec))
    ensures r.0.x >= r.1.x
    ensures r == (a, b) || r == (b, a)
    ensures a.x >= b.x ==> r == (a, b)
  {
    if a.x < b.x then (b, a) else (a, b)
  }

  /** Normalising twice changes nothing. */
  lemma WallEndsIdempotent(a: Vec, b: Vec)
    ensures WallEnds(WallEnds(a, b).0, WallEnds(a, b).1) == WallEnds(a, b)
  {
  }

  /** Unless both ends share an x, the wall does not depend on the order its ends are given in. */
  lemma WallEndsSymmetric(a: Vec, b: Vec)
    requires a.x != b.x
    ensures WallEnds(a, b) == WallEnds(b, a)
  {
  }

  /**
   * The sprite a helper paints for a segment: a w by h rounded rectangle,
   * offset from the body's position to the segment's midpoint, and whether
   * its turn angle is negated.
   */
  datatype Sprite = Sprite(w: real, h: real, offset: Vec, flipped: bool)

  /** The corner radius AddWall draws with: a zero-radius wall is drawn one unit round. */
  function WallRadius(radius: real): (r: real)
    ensures r != 0.0
    ensures radius != 0.0 ==> r == radius
    ensures radius == 0.0 ==> r == 1.0
  {
    if radius == 0.0 then 1.0 else radius
  }

  /**
   * AddWall's sprite for the segment from a to b (already normalised), on a
   * body at bodyPos, where dist is the segment's length: twice the drawn
   * radius wide, and that much longer than the segment.
   */
  function WallSprite(a: Vec, b: Vec, radius: real, dist: real, bodyPos: Vec): (s: Sprite)
    requires IsDistance(dist, a, b)
    ensures s.w == 2.0 * WallRadius(radius) && s.h - s.w == dist
    ensures Add(bodyPos, s.offset) == Midpoint(a, b)
    ensures s.flipped <==> b.y < a.y
  {
    var r := WallRadius(radius);
    Sprite(r * 2.0, dist + r * 2.0, Sub(Midpoint(a, b), bodyPos), b.y < a.y)
  }

  /** The distance is symmetric, so it can be used for either order of the ends. */
  lemma DistanceSymmetric(d: real, a: Vec, b: Vec)
    requires IsDistance(d, a, b)
    ensures IsDistance(d, b, a)
  {
  }

  /**
   * A wall's sprite has the same size and position whichever order its ends
   * are given in, and unless it is vertical it also turns the same way.
   */
  lemma WallSpriteOrderFree(a: Vec, b: Vec, radius: real, dist: real, bodyPos: Vec)
    requires IsDistance(dist, a, b)
    ensures var e, e' := WallEnds(a, b), WallEnds(b, a);
      IsDistance(dist, e.0, e.1) && IsDistance(dist, e'.0, e'.1) &&
      var s, s' := WallSprite(e.0, e.1, radius, dist, bodyPos), WallSprite(e'.0, e'.1, radius, dist, bodyPos);
      && s.w == s'.w && s.h == s'.h && s.offset == s'.offset
      && (a.x != b.x ==> s.flipped == s'.flipped)
  {
    DistanceSymmetric(dist, a, b);
    var e, e' := WallEnds(a, b), WallEnds(b, a);
    assert Midpoint(e.0, e.1) == Midpoint(e'.0, e'.1);
  }

  /**
   * AddSegment's segment for a box of the given width and height: vertical,
   * centred on the body, with rounded ends of radius width/2.
   */
  function SegmentGeom(width: real, height: real): (g: Geom)
    ensures g.Segment? && g.a.x == 0.0 && g.b.x == 0.0 && g.a.y == -g.b.y
    ensures g.a.y - g.b.y == height - width && 2.0 * g.radius == width
  {
    Segment(Vec(0.0, (height - width) / 2.0), Vec(0.0, (width - height) / 2.0), width / 2.0)
  }

  /** The ends of a vertical segment are their difference in y apart. */
  lemma VerticalDistance(a: Vec, b: Vec)
    requires a.x == b.x
    ensures IsDistance(Abs(a.y - b.y), a, b)
  {
  }

  /**
   * AddSegment's sprite: twice the segment's radius wide, and its length plus
   * that tall; it is centred on the body and never turned by itself.
   */
  function SegmentSprite(width: real, height: real): (s: Sprite)
    ensures s.offset == Zero && !s.flipped
    ensures s.w == width
    ensures height >= width ==> s.h == height
    ensures height < width ==> s.h == 2.0 * width - height
  {
    var g := SegmentGeom(width, height);
    VerticalDistance(g.a, g.b);
    Sprite(g.radius * 2.0, Abs(g.a.y - g.b.y) + g.radius * 2.0, Zero, false)
  }

  /**
   * AddWall: adds the normalised segment on body with the given radius,
   * bouncy, with friction 1, and out of reach of the pointer grab; the
   * sprite is built from the normalised ends, the body's position at the
   * time of the call, and the segment's length dist.
   */
  method AddWall(space: Space, body: Body, a: Vec, b: Vec, radius: real, dist: real) returns (shape: Shape, sprite: Sprite)
    requires IsDistance(dist, a, b)
    modifies space
    ensures fresh(shape) && shape.body == body
    ensures shape.geom == Segment(WallEnds(a, b).0, WallEnds(a, b).1, radius)
    ensures shape.elasticity == 1.0 && shape.friction == 1.0 && shape.filter == NotGrabbable
    ensures space.shapes == old(space.shapes) + [shape]
    ensures space.bodies == old(space.bodies) && space.constraints == old(space.constraints)
    ensures space.pendingRemovals == old(space.pendingRemovals) && space.steps == old(space.steps)
    ensures sprite == WallSprite(WallEnds(a, b).0, WallEnds(a, b).1, radius, dist, body.position)
    ensures space.gravity == old(space.gravity) && space.sleepTimeThreshold == old(space.sleepTimeThreshold)
  {
    var a, b := a, b;
    if a.x < b.x {
      a, b := b, a;
    }
    shape := new Shape(body, Segment(a, b, radius));
    space.AddShape(shape);
    shape.elasticity := 1.0;
    shape.friction := 1.0;
    shape.filter := NotGrabbable;
    DistanceSymmetric(dist, b, a);
    sprite := WallSprite(a, b, radius, dist, body.position);
  }

  /**
   * AddSegment: adds a new dynamic body of the given mass at pos, and on it
   * a vertical segment filling a width by height box, with no bounce and
   * friction 0.7; the sprite is painted in the shape's colour.
   */
  method AddSegment(space: Space, pos: Vec, mass: real, width: real, height: real) returns (shape: Shape, sprite: Sprite)
    modifies space
    ensures fresh(shape) && fresh(shape.body)
    ensures shape.body.kind == BodyKind.Dynamic && shape.body.mass == Finite(mass) && shape.body.position == pos
    ensures shape.geom == SegmentGeom(width, height)
    ensures shape.elasticity == 0.0 && shape.friction == 0.7 && shape.filter == DefaultFilter
    ensures space.bodies == old(space.bodies) + [shape.body] && space.shapes == old(space.shapes) + [shape]
    ensures space.constraints == old(space.constraints)
    ensures space.pendingRemovals == old(space.pendingRemovals) && space.steps == old(space.steps)
    ensures sprite == SegmentSprite(width, height)
    ensures space.gravity == old(space.gravity) && space.sleepTimeThreshold == old(space.sleepTimeThreshold)
  {
    var body := new Body.Dynamic(mass);
    space.AddBody(body);
    body.position := pos;
    shape := new Shape(body, SegmentGeom(width, height));
    space.AddShape(shape);
    shape.elasticity := 0.0;
    shape.friction := 0.7;
    sprite := SegmentSprite(width, height);
  }

  /** The colour of DrawBB's lines: opaque red. */
  const BBLineColor: (bv8, bv8, bv8, bv8) := (255, 0, 0, 255)

  /** DrawBB's four lines, each from its first point to its second, in drawing order. */
  function BBLines(bb: Mesh.BB): (r: seq<(Vec, Vec)>)
    ensures |r| == 4
    ensures forall i :: 0 <= i < 4 ==> r[i].0 == Mesh.BBCorners(bb)[i]
  {
    [ (Vec(bb.r, bb.b), Vec(bb.r, bb.t)),
      (Vec(bb.r, bb.t), Vec(bb.l, bb.t)),
      (Vec(bb.l, bb.t), Vec(bb.l, bb.b)),
      (Vec(bb.l, bb.b), Vec(bb.r, bb.b)) ]
  }

  /**
   * The lines form a closed loop around the box: each ends where the next
   * begins, the last ends where the first begins, and each is a side of the
   * box, so they trace the same outline as the polygon drawing.go's DrawBB
   * hands to DrawPolygon.
   */
  lemma BBLinesClosed(bb: Mesh.BB)
    ensures forall i :: 0 <= i < 4 ==> BBLines(bb)[i].1 == BBLines(bb)[(i + 1) % 4].0
    ensures forall i :: 0 <= i < 4 ==> BBLines(bb)[i].1 == Mesh.BBCorners(bb)[(i + 1) % 4]
    ensures forall i :: 0 <= i < 4 ==>
      BBLines(bb)[i].0.x == BBLines(bb)[i].1.x || BBLines(bb)[i].0.y == BBLines(bb)[i].1.y
  {
    var r := BBLines(bb);
    assert r[0].1 == r[1].0 && r[1].1 == r[2].0 && r[2].1 == r[3].0 && r[3].1 == r[0].0;
  }
}
