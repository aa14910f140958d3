// The antialiased vector renderer of drawing.go: fixed vertex and index
// layouts for circle quads and capsules, the polygon's neighbour, fan and
// ring indexing, and the scalar width rules. Vertex positions that need a
// square root (Normalize) take the library's unit normal as a parameter; the
// polygon's miter offsets are not modelled, only which vertices they come from.
module Mesh {
  import opened Geometry
  import opened ShapeStyle

  /** DrawPointLineScale; the antialiasing margin is 1 / DrawPointLineScale. */
  const DrawPointLineScale: real := 1.0
  const Margin: real := 1.0 / DrawPointLineScale

  /** One vertex handed to the shader: position, antialiasing coordinate, colour. */
  datatype Vertex = Vertex(pos: Vec, aa: Vec, color: FColor)

  /** One DrawTrianglesShader call: a vertex list and a triangle index list. */
  datatype Batch = Batch(vertices: seq<Vertex>, indices: seq<int>)

  /** Every index names a vertex of the batch and the indices come in threes. */
  predicate WellFormed(b: Batch)
  {
    |b.indices| % 3 == 0 && forall k :: 0 <= k < |b.indices| ==> 0 <= b.indices[k] < |b.vertices|
  }

  function TriangleCount(b: Batch): int { |b.indices| / 3 }

  /** The quad of DrawCircle (and DrawDot): corners at pos +- r, in the order (-,-), (-,+), (+,+), (+,-). */
  function Quad(pos: Vec, r: real, fill: FColor): seq<Vertex>
  {
    [ Vertex(Vec(pos.x - r, pos.y - r), Vec(-1.0, -1.0), fill),
      Vertex(Vec(pos.x - r, pos.y + r), Vec(-1.0, 1.0), fill),
      Vertex(Vec(pos.x + r, pos.y + r), Vec(1.0, 1.0), fill),
      Vertex(Vec(pos.x + r, pos.y - r), Vec(1.0, -1.0), fill) ]
  }

  const QuadIndices: seq<int> := [0, 1, 2, 0, 2, 3]

  /** The filled quad of DrawCircle, grown by the margin. */
  function CircleQuad(pos: Vec, radius: real, fill: FColor): Batch
  {
    Batch(Quad(pos, radius + Margin, fill), QuadIndices)
  }

  /**
   * The circle quad: two triangles over four vertices, corners exactly
   * radius + margin from the centre on both axes, antialiasing coordinates
   * the corners of [-1,1]^2 with the same signs as the corner offsets, and
   * the fill colour everywhere.
   */
  lemma CircleQuadLayout(pos: Vec, radius: real, fill: FColor)
    ensures var q := CircleQuad(pos, radius, fill);
      && WellFormed(q) && |q.vertices| == 4 && TriangleCount(q) == 2
      && forall k :: 0 <= k < 4 ==>
           && q.vertices[k].pos == Add(pos, Scale(q.vertices[k].aa, radius + 1.0))
           && (q.vertices[k].aa.x == 1.0 || q.vertices[k].aa.x == -1.0)
           && (q.vertices[k].aa.y == 1.0 || q.vertices[k].aa.y == -1.0)
           && q.vertices[k].color == fill
    ensures var q := CircleQuad(pos, radius, fill);
      {q.vertices[0].aa, q.vertices[1].aa, q.vertices[2].aa, q.vertices[3].aa}
        == {Vec(-1.0, -1.0), Vec(-1.0, 1.0), Vec(1.0, 1.0), Vec(1.0, -1.0)}
  {
  }

  /** DrawFatSegment: the half-width is radius + margin, but never below the margin. */
  function FatHalfWidth(radius: real): real
  {
    var r := radius + Margin;
    if r <= Margin then Margin else r
  }

  /** DrawFatSegment: a segment too thin to fill is drawn in the outline colour. */
  function FatFill(radius: real, outline: FColor, fill: FColor): FColor
  {
    if radius + Margin <= Margin then outline else fill
  }

  const CapsuleIndices: seq<int> := [0, 1, 2, 3, 1, 2, 3, 4, 2, 3, 4, 5, 6, 4, 5, 6, 7, 5]

  const CapsuleAA: seq<Vec> := [Vec(1.0, -1.0), Vec(1.0, 1.0), Vec(0.0, -1.0), Vec(0.0, 1.0),
                                Vec(0.0, -1.0), Vec(0.0, 1.0), Vec(-1.0, -1.0), Vec(-1.0, 1.0)]

  /**
   * The capsule of DrawFatSegment from a to b. The unit normal n is the
   * library's Normalize(ReversePerp(b - a)); t = ReversePerp(n) points from b
   * back to a.
   */
  function FatSegmentBatch(a: Vec, b: Vec, n: Vec, radius: real, outline: FColor, fill: FColor): Batch
  {
    var r := FatHalfWidth(radius);
    var col := FatFill(radius, outline, fill);
    var nw := Scale(n, r);
    var tw := Scale(ReversePerp(n), r);
    Batch([ Vertex(Sub(b, Add(nw, tw)), CapsuleAA[0], col), Vertex(Add(b, Sub(nw, tw)), CapsuleAA[1], col),
            Vertex(Sub(b, nw), CapsuleAA[2], col), Vertex(Add(b, nw), CapsuleAA[3], col),
            Vertex(Sub(a, nw), CapsuleAA[4], col), Vertex(Add(a, nw), CapsuleAA[5], col),
            Vertex(Sub(a, Sub(nw, tw)), CapsuleAA[6], col), Vertex(Add(a, Add(nw, tw)), CapsuleAA[7], col) ],
          CapsuleIndices)
  }

  /**
   * The capsule: six triangles over eight vertices; the half-width is
   * max(radius + margin, margin) and the fill is replaced by the outline
   * exactly when radius <= 0; the antialiasing x coordinates are
   * (1,1,0,0,0,0,-1,-1) and the y coordinates alternate -1, +1.
   */
  lemma FatSegmentLayout(a: Vec, b: Vec, n: Vec, radius: real, outline: FColor, fill: FColor)
    ensures var s := FatSegmentBatch(a, b, n, radius, outline, fill);
      && WellFormed(s) && |s.vertices| == 8 && TriangleCount(s) == 6
      && FatHalfWidth(radius) == Max(radius + 1.0, 1.0)
      && (radius <= 0.0 ==> forall k :: 0 <= k < 8 ==> s.vertices[k].color == outline)
      && (radius > 0.0 ==> forall k :: 0 <= k < 8 ==> s.vertices[k].color == fill)
      && (forall k :: 0 <= k < 8 ==> s.vertices[k].aa.x == (if k < 2 then 1.0 else if k < 6 then 0.0 else -1.0))
      && (forall k :: 0 <= k < 8 ==> s.vertices[k].aa.y == (if k % 2 == 0 then -1.0 else 1.0))
  {
  }

  /**
   * The capsule is point-symmetric about the segment's midpoint: vertex k and
   * vertex 7 - k are mirror images through it, with opposite antialiasing
   * coordinates.
   */
  lemma FatSegmentSymmetric(a: Vec, b: Vec, n: Vec, radius: real, outline: FColor, fill: FColor, k: int)
    requires 0 <= k < 8
    ensures var s := FatSegmentBatch(a, b, n, radius, outline, fill);
      && Add(s.vertices[k].pos, s.vertices[7 - k].pos) == Add(a, b)
      && s.vertices[7 - k].aa == Neg(s.vertices[k].aa)
  {
  }

  /** The direction-and-length endpoint of DrawCircle's spoke: radius - margin/2 along the angle. */
  function SpokeEnd(pos: Vec, dir: Vec, radius: real): Vec
  {
    Add(pos, Scale(dir, radius - DrawPointLineScale * 0.5))
  }

  /** Normalize(ReversePerp(end - pos)) for the spoke, given the unit direction of the angle. */
  function SpokeNormal(dir: Vec, radius: real): Vec
  {
    var len := radius - DrawPointLineScale * 0.5;
    if len > 0.0 then ReversePerp(dir) else if len < 0.0 then Neg(ReversePerp(dir)) else Zero
  }

  // ---------------------------------------------------------------------
  // DrawPolygon's index structure and scalar rules.

  /** (i - 1 + count) % count, Go's remainder on non-negative operands. */
  function Prev(i: int, count: int): int
    requires 0 <= i < count
  {
    (i - 1 + count) % count
  }

  /** (i + 1) % count. */
  function Next(i: int, count: int): int
    requires 0 <= i < count
  {
    (i + 1) % count
  }

  /** Go's % on an operand in [0, 2m) is at most one subtraction of m. */
  lemma ModBelowTwice(x: int, m: int)
    requires 0 < m && 0 <= x < 2 * m
    ensures x % m == if x < m then x else x - m
  {
    if x < m {
      assert x / m == 0;
    } else {
      assert (x - m) / m == 0;
      assert x / m == 1;
    }
  }

  /** The neighbour indices stay in range and are inverse to each other. */
  lemma NeighboursInverse(i: int, count: int)
    requires 0 <= i < count
    ensures Prev(i, count) == if i == 0 then count - 1 else i - 1
    ensures Next(i, count) == if i == count - 1 then 0 else i + 1
    ensures Next(Prev(i, count), count) == i && Prev(Next(i, count), count) == i
    ensures count > 1 ==> Prev(i, count) != i && Next(i, count) != i
  {
    ModBelowTwice(i - 1 + count, count);
    ModBelowTwice(i + 1, count);
    var p, n := Prev(i, count), Next(i, count);
    ModBelowTwice(p + 1, count);
    ModBelowTwice(n - 1 + count, count);
  }

  /** Which vertices an extrude entry is computed from: v0 = verts[prev], v1 = verts[i], v2 = verts[next]. */
  datatype Extrude = Extrude(prev: int, next: int)

  /** The first loop of DrawPolygon: fills extrude[i] from the two neighbours of vertex i. */
  method ExtrudeNeighbours(count: nat) returns (extrude: array<Extrude>)
    ensures extrude.Length == count
    ensures forall i :: 0 <= i < count ==> extrude[i] == Extrude(Prev(i, count), Next(i, count))
    ensures forall i :: 0 <= i < count ==>
              0 <= extrude[i].prev < count && 0 <= extrude[i].next < count
              && extrude[extrude[i].prev].next == i && extrude[extrude[i].next].prev == i
  {
    extrude := new Extrude[count](_ => Extrude(0, 0));
    var i := 0;
    while i < count
      invariant 0 <= i <= count
      invariant forall k :: 0 <= k < i ==> extrude[k] == Extrude(Prev(k, count), Next(k, count))
    {
      extrude[i] := Extrude(Prev(i, count), Next(i, count));
      i := i + 1;
    }
    forall i | 0 <= i < count
      ensures 0 <= extrude[i].prev < count && 0 <= extrude[i].next < count
      ensures extrude[extrude[i].prev].next == i && extrude[extrude[i].next].prev == i
    {
      NeighboursInverse(i, count);
    }
  }

  /** inset = -max(0, margin - radius). */
  function Inset(radius: real): real
  {
    -Max(0.0, Margin - radius)
  }

  /** outset = margin + radius - inset. */
  function Outset(radius: real): real
  {
    Margin + radius - Inset(radius)
  }

  /**
   * The fill is never pushed outwards, the outer edge always sits at
   * radius + margin from the polygon (inset + outset), and the ring is at
   * least two margins wide.
   */
  lemma InsetOutset(radius: real)
    ensures Inset(radius) <= 0.0
    ensures Inset(radius) + Outset(radius) == radius + 1.0
    ensures Outset(radius) == Max(2.0, radius + 1.0)
    ensures radius >= 1.0 <==> Inset(radius) == 0.0
  {
  }

  /** The second loop of DrawPolygon: the fan (0, i+1, i+2) for i < count - 2. */
  method FanTriangles(count: nat) returns (fan: seq<(int, int, int)>)
    ensures |fan| == if count >= 2 then count - 2 else 0
    ensures forall i :: 0 <= i < |fan| ==> fan[i] == (0, i + 1, i + 2)
    ensures forall i :: 0 <= i < |fan| ==> 0 <= fan[i].0 < count && fan[i].1 < count && fan[i].2 < count
  {
    fan := [];
    var i := 0;
    while i < count - 2
      invariant 0 <= i && (count >= 2 ==> i <= count - 2) && (count < 2 ==> i == 0)
      invariant |fan| == i
      invariant forall k :: 0 <= k < i ==> fan[k] == (0, k + 1, k + 2)
    {
      fan := fan + [(0, i + 1, i + 2)];
      i := i + 1;
    }
  }

  /** Consecutive fan triangles share an edge, and all share vertex 0: the fan covers the polygon without gaps. */
  lemma {:induction false} FanAdjacent(fan: seq<(int, int, int)>, count: nat, k: int)
    requires |fan| == if count >= 2 then count - 2 else 0
    requires forall i :: 0 <= i < |fan| ==> fan[i] == (0, i + 1, i + 2)
    requires 0 <= k && k + 1 < |fan|
    ensures fan[k].0 == fan[k + 1].0 == 0 && fan[k].2 == fan[k + 1].1
    ensures fan[k].1 < fan[k].2 < fan[k + 1].2
  {
  }

  /** The third loop of DrawPolygon: j starts at count - 1 and trails i, so edge i is (i, prev(i)). */
  method RingEdges(count: nat) returns (edges: seq<(int, int)>)
    ensures |edges| == count
    ensures forall i :: 0 <= i < count ==> edges[i] == (i, Prev(i, count))
  {
    edges := [];
    var j := count - 1;
    var i := 0;
    while i < count
      invariant 0 <= i <= count
      invariant |edges| == i
      invariant j == if i == 0 then count - 1 else i - 1
      invariant forall k :: 0 <= k < i ==> edges[k] == (k, Prev(k, count))
    {
      assert j == Prev(i, count);
      edges := edges + [(i, j)];
      j := i;
      i := i + 1;
    }
  }

  /**
   * The ring visits every edge of the polygon exactly once: edge k starts at
   * vertex k, and the k-th edge's second vertex is the first vertex of no
   * other edge but the one before it.
   */
  lemma RingVisitsEachEdgeOnce(edges: seq<(int, int)>, count: nat)
    requires |edges| == count
    requires forall i :: 0 <= i < count ==> edges[i] == (i, Prev(i, count))
    ensures forall i, k :: 0 <= i < k < count ==> edges[i] != edges[k]
    ensures forall v :: 0 <= v < count ==> 0 <= Next(v, count) < count && edges[Next(v, count)].1 == v
    ensures forall i :: 0 <= i < count ==> 0 <= edges[i].1 < count && Next(edges[i].1, count) == edges[i].0
  {
    forall v | 0 <= v < count
      ensures 0 <= Next(v, count) < count && edges[Next(v, count)].1 == v
    {
      NeighboursInverse(v, count);
      var i := Next(v, count);
      NeighboursInverse(i, count);
      assert 0 <= i < count && edges[i] == (i, Prev(i, count));
      assert edges[i].1 == v;
    }
    forall i | 0 <= i < count
      ensures 0 <= edges[i].1 < count && Next(edges[i].1, count) == edges[i].0
    {
      NeighboursInverse(i, count);
    }
  }

  /** What DrawPolygon computes, all of which it then discards. */
  datatype PolygonLayout = PolygonLayout(
    extrude: seq<Extrude>, inset: real, fan: seq<(int, int, int)>, outset: real, ring: seq<(int, int)>)

  /** The corners of a bounding box (L, B, R, T) in the order DrawBB passes them: (R,B), (R,T), (L,T), (L,B). */
  datatype BB = BB(l: real, b: real, r: real, t: real)

  function BBCorners(bb: BB): seq<Vec>
  {
    [Vec(bb.r, bb.b), Vec(bb.r, bb.t), Vec(bb.l, bb.t), Vec(bb.l, bb.b)]
  }

  /** Every ring edge of DrawBB's polygon is a side of the box: its ends differ in one coordinate only. */
  lemma BBRingSides(bb: BB, i: int)
    requires 0 <= i < 4
    ensures var c, p := BBCorners(bb)[i], BBCorners(bb)[Prev(i, 4)];
      && (c.x == p.x || c.y == p.y)
      && (bb.l != bb.r && bb.b != bb.t ==> (c.x == p.x <==> c.y != p.y))
  {
  }

  /** The (discarded) quad of DrawDot: a square of side size centred on pos. */
  function DotQuad(size: real, pos: Vec, fill: FColor): seq<Vertex>
  {
    Quad(pos, size * 0.5 / DrawPointLineScale, fill)
  }

  lemma DotQuadCentred(size: real, pos: Vec, fill: FColor)
    ensures var q := DotQuad(size, pos, fill);
      && |q| == 4 && q[2].pos.x - q[0].pos.x == size && q[2].pos.y - q[0].pos.y == size
      && Add(q[0].pos, q[2].pos) == Scale(pos, 2.0) && Add(q[1].pos, q[3].pos) == Scale(pos, 2.0)
  {
  }

  // ---------------------------------------------------------------------
  // FcolorToColor.

  datatype RGBA = RGBA(r: int, g: int, b: int, a: int)

  predicate UnitColor(c: FColor)
  {
    0.0 <= c.r <= 1.0 && 0.0 <= c.g <= 1.0 && 0.0 <= c.b <= 1.0 && 0.0 <= c.a <= 1.0
  }

  /**
   * FcolorToColor: each channel times 255, truncated to a byte. Go leaves
   * uint8() of an out-of-range float to the implementation, so the channels
   * must lie in [0, 1].
   */
  function FcolorToColor(c: FColor): (out: RGBA)
    requires UnitColor(c)
  {
    RGBA(ToUint8(c.r * 255.0), ToUint8(c.g * 255.0), ToUint8(c.b * 255.0), ToUint8(c.a * 255.0))
  }

  /** Each byte is the largest k with k/255 <= channel, and bytes come back unchanged through k/255. */
  lemma FcolorToColorBytes(c: FColor, k: int)
    requires UnitColor(c) && IsByte(k)
    ensures var out := FcolorToColor(c);
      && IsByte(out.r) && IsByte(out.g) && IsByte(out.b) && IsByte(out.a)
      && out.r as real / 255.0 <= c.r < (out.r + 1) as real / 255.0
      && (c.r == 1.0 <==> out.r == 255)
    ensures FcolorToColor(FColor(k as real / 255.0, k as real / 255.0, k as real / 255.0, k as real / 255.0))
            == RGBA(k, k, k, k)
  {
  }

  /** The renderer: the batches it has handed to the target image, in order. */
  class DrawOptions {
    var submitted: seq<Batch>

    constructor ()
      ensures submitted == []
    {
      submitted := [];
    }

    /** DrawCircle: the filled quad, then the spoke from the centre along the angle (dir = ForAngle(angle)). */
    method DrawCircle(pos: Vec, dir: Vec, radius: real, outline: FColor, fill: FColor)
      modifies this
      ensures submitted == old(submitted) + [CircleQuad(pos, radius, fill),
        FatSegmentBatch(pos, SpokeEnd(pos, dir, radius), SpokeNormal(dir, radius), 0.0, outline, fill)]
    {
      submitted := submitted + [CircleQuad(pos, radius, fill)];
      DrawFatSegment(pos, SpokeEnd(pos, dir, radius), SpokeNormal(dir, radius), 0.0, outline, fill);
    }

    /** DrawSegment: a zero-radius capsule in the fill colour. */
    method DrawSegment(a: Vec, b: Vec, n: Vec, fill: FColor)
      modifies this
      ensures submitted == old(submitted) + [FatSegmentBatch(a, b, n, 0.0, fill, fill)]
    {
      DrawFatSegment(a, b, n, 0.0, fill, fill);
    }

    method DrawFatSegment(a: Vec, b: Vec, n: Vec, radius: real, outline: FColor, fill: FColor)
      modifies this
      ensures submitted == old(submitted) + [FatSegmentBatch(a, b, n, radius, outline, fill)]
    {
      submitted := submitted + [FatSegmentBatch(a, b, n, radius, outline, fill)];
    }

    /** DrawPolygon: computes its layout and hands nothing to the image. */
    method DrawPolygon(count: nat, verts: seq<Vec>, radius: real, outline: FColor, fill: FColor)
      returns (layout: PolygonLayout)
      requires count <= |verts|
      ensures submitted == old(submitted)
      ensures |layout.extrude| == |layout.ring| == count
      ensures layout.inset == Inset(radius) && layout.outset == Outset(radius)
      ensures |layout.fan| == if count >= 2 then count - 2 else 0
      ensures forall i :: 0 <= i < count ==> layout.extrude[i] == Extrude(Prev(i, count), Next(i, count))
      ensures forall i :: 0 <= i < |layout.fan| ==> layout.fan[i] == (0, i + 1, i + 2)
      ensures forall i :: 0 <= i < count ==> layout.ring[i] == (i, layout.extrude[i].prev)
    {
      var extrude := ExtrudeNeighbours(count);
      var inset := Inset(radius);
      var fan := FanTriangles(count);
      var outset := Outset(radius);
      var ring := RingEdges(count);
      layout := PolygonLayout(extrude[..], inset, fan, outset, ring);
    }

    /** DrawDot: builds a quad and discards it. */
    method DrawDot(size: real, pos: Vec, fill: FColor)
      ensures submitted == old(submitted)
    {
      var _ := DotQuad(size, pos, fill);
    }

    /** DrawBB: the box as a zero-radius polygon with a transparent fill. */
    method DrawBB(bb: BB, outline: FColor) returns (layout: PolygonLayout)
      ensures submitted == old(submitted)
      ensures |layout.ring| == 4 && forall i :: 0 <= i < 4 ==> layout.ring[i] == (i, Prev(i, 4))
    {
      layout := DrawPolygon(4, BBCorners(bb), 0.0, outline, FColor(0.0, 0.0, 0.0, 0.0));
    }
  }
}
