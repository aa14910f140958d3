// The breakable-chain demo of chain/chain.go: the joint-breaking rule, the
// closed-form positions of the 8 × 10 links, the slide joints wiring them,
// and the screen-edge walls.

module Chain {
  import opened Geometry
  import opened Engine
  import Shapes
  import Grab
  import Input

  const ScreenWidth: real := 600.0
  const ScreenHeight: real := 480.0

  const ChainCount: nat := 8
  const LinkCount: nat := 10

  const LinkMass: real := 1.0
  const LinkWidth: real := 20.0
  const LinkHeight: real := 30.0
  /** The slack of each slide joint, and the gap between consecutive links. */
  const Spacing: real := LinkWidth * 0.3
  const BreakingForce: real := 80000.0

  // ---------------------------------------------------------------------------
  // Breaking (chain/chain.go:23-38)

  /**
   * BreakableJointPostSolve's test: the impulse of the last step, as a force,
   * above 90% of the joint's maximum force. A joint of unlimited force never
   * breaks.
   */
  predicate ShouldBreak(impulse: real, dt: real, maxForce: Extended)
    requires dt > 0.0
  {
    match maxForce
    case Infinity => false
    case Finite(m) => impulse / dt > 0.9 * m
  }

  /** The break test without the division: the impulse exceeds 90% of what the maximum force delivers in dt. */
  lemma ShouldBreakIff(impulse: real, dt: real, m: real)
    requires dt > 0.0
    ensures ShouldBreak(impulse, dt, Finite(m)) <==> impulse > 0.9 * m * dt
    ensures !ShouldBreak(impulse, dt, Infinity)
  {
    var f := impulse / dt;
    assert f * dt == impulse;
    if f > 0.9 * m {
      MulLess(dt, 0.9 * m, f);
    } else {
      MulMonotone(dt, f, 0.9 * m);
    }
  }

  lemma MulLess(x: real, p: real, q: real)
    requires x > 0.0 && p < q
    ensures p * x < q * x
  {
    assert q * x - p * x == (q - p) * x;
  }

  /**
   * BreakableJointPostSolve: when the joint is strained past the threshold,
   * its removal is queued for the end of the step; it is not removed here.
   */
  method PostSolve(joint: Constraint, space: Space, impulse: real, dt: real)
    requires dt > 0.0
    modifies space
    ensures ShouldBreak(impulse, dt, joint.maxForce) ==> space.pendingRemovals == old(space.pendingRemovals) + {joint}
    ensures !ShouldBreak(impulse, dt, joint.maxForce) ==> space.pendingRemovals == old(space.pendingRemovals)
    ensures space.constraints == old(space.constraints) && space.steps == old(space.steps)
    ensures space.bodies == old(space.bodies) && space.shapes == old(space.shapes)
  {
    var force := impulse / dt;
    match joint.maxForce {
      case Infinity =>
      case Finite(maxForce) =>
        if force > 0.9 * maxForce {
          space.QueueRemoval(joint);
        }
    }
  }

  /**
   * A joint that breaks during a step is still in the space until the step
   * ends, and gone after it; a joint that does not break stays.
   */
  method PostSolveThenStep(joint: Constraint, space: Space, impulse: real, dt: real)
    requires dt > 0.0 && space.pendingRemovals == {}
    modifies space
    ensures joint in old(space.constraints) ==> (joint in space.constraints <==> !ShouldBreak(impulse, dt, joint.maxForce))
    ensures space.steps == old(space.steps) + [dt]
  {
    PostSolve(joint, space, impulse, dt);
    space.Step(dt);
  }

  /**
   * The joints among cs whose hook breaks them in a step of length dt: the
   * breakable ones the solver ran (the keys of impulses, each with the
   * impulse it ended the step with) that are strained past the threshold.
   */
  ghost function Broken(cs: set<Constraint>, impulses: map<Constraint, real>, dt: real): set<Constraint>
    requires dt > 0.0
    reads cs
  {
    set c | c in cs && c in impulses && c.breakable && ShouldBreak(impulses[c], dt, c.maxForce)
  }

  /** One turn of the hook loop: the queue grows by c exactly when c is broken, and then covers done + {c}. */
  lemma QueueStep(queued: set<Constraint>, done: set<Constraint>, c: Constraint, impulses: map<Constraint, real>, dt: real,
                  before: set<Constraint>, after: set<Constraint>)
    requires dt > 0.0
    requires before == queued + Broken(done, impulses, dt)
    requires c in impulses && c.breakable && ShouldBreak(impulses[c], dt, c.maxForce) ==> after == before + {c}
    requires !(c in impulses && c.breakable && ShouldBreak(impulses[c], dt, c.maxForce)) ==> after == before
    ensures after == queued + Broken(done + {c}, impulses, dt)
  {
    assert Broken(done + {c}, impulses, dt) ==
      Broken(done, impulses, dt) + (if c in impulses && c.breakable && ShouldBreak(impulses[c], dt, c.maxForce) then {c} else {});
  }

  /** A loop over a set moves one element from what is left to what is done. */
  lemma MoveOne<T>(todo: set<T>, done: set<T>, all: set<T>, x: T)
    requires todo + done == all && todo !! done && x in todo
    ensures (todo - {x}) + (done + {x}) == all && (todo - {x}) !! (done + {x})
  {
  }

  /**
   * The post-solve hooks of one step: every joint the solver ran that
   * carries the breakable hook is checked, and the strained ones are queued
   * for removal at the end of the step.
   */
  method PostSolveAll(space: Space, impulses: map<Constraint, real>, dt: real)
    requires dt > 0.0
    modifies space
    ensures space.pendingRemovals == old(space.pendingRemovals) + Broken(old(space.constraints), impulses, dt)
    ensures space.constraints == old(space.constraints) && space.steps == old(space.steps)
    ensures space.bodies == old(space.bodies) && space.shapes == old(space.shapes)
  {
    var todo := space.constraints;
    ghost var all, queued := todo, space.pendingRemovals;
    ghost var done: set<Constraint> := {};
    while todo != {}
      invariant todo + done == all && todo !! done
      invariant space.pendingRemovals == queued + Broken(done, impulses, dt)
      invariant space.constraints == old(space.constraints) && space.steps == old(space.steps)
      invariant space.bodies == old(space.bodies) && space.shapes == old(space.shapes)
      decreases |todo|
    {
      var c :| c in todo;
      ghost var before := space.pendingRemovals;
      if c.breakable && c in impulses {
        PostSolve(c, space, impulses[c], dt);
      }
      QueueStep(queued, done, c, impulses, dt, before, space.pendingRemovals);
      MoveOne(todo, done, all, c);
      todo := todo - {c};
      done := done + {c};
    }
  }

  // ---------------------------------------------------------------------------
  // Layout (chain/chain.go:60-95)

  /** The x of chain i: 40 apart, centred on the screen. */
  function ChainX(i: int): real
  {
    ScreenWidth / 2.0 + 40.0 * (i as real - (ChainCount - 1) as real / 2.0)
  }

  /** The y of link j: a link height plus a spacing per link above it. */
  function LinkY(j: int): real
  {
    (j as real + 0.5) * LinkHeight + (j as real + 1.0) * Spacing
  }

  function LinkPos(i: int, j: int): Vec { Vec(ChainX(i), LinkY(j)) }

  /** The chains are 40 apart, from 160 to 440, mirror images about the screen's middle. */
  lemma ChainsSymmetric(i: int)
    ensures ChainX(i) + ChainX(ChainCount - 1 - i) == ScreenWidth
    ensures ChainX(i + 1) - ChainX(i) == 40.0
    ensures ChainX(0) == 160.0 && ChainX(ChainCount - 1) == 440.0
  {
  }

  /** The first link hangs at 21 and each next one 36 lower. */
  lemma LinksStacked(j: int)
    ensures LinkY(0) == 21.0
    ensures LinkY(j + 1) - LinkY(j) == LinkHeight + Spacing
  {
  }

  /** Where on the link its joint is attached: the middle of its top edge. */
  const TopAnchor := Vec(0.0, -LinkHeight / 2.0)
  /** Where on the previous link the joint is attached: the middle of its bottom edge. */
  const BottomAnchor := Vec(0.0, LinkHeight / 2.0)

  /**
   * The slide joint of a link at pos: to the static body at (pos.X, 0) for
   * the first link of a chain, else to the previous link's bottom; either
   * way from the link's top, with a length between 0 and Spacing.
   */
  function LinkJoint(pos: Vec, first: bool): (k: JointKind)
    ensures k.Slide? && k.anchorA == TopAnchor && k.min == 0.0 && k.max == Spacing
    ensures first ==> k.anchorB == Vec(pos.x, 0.0)
    ensures !first ==> k.anchorB == BottomAnchor
  {
    if first then Slide(TopAnchor, Vec(pos.x, 0.0), 0.0, Spacing)
    else Slide(TopAnchor, BottomAnchor, 0.0, Spacing)
  }

  /**
   * Every joint starts fully extended: the top anchor of the first link is
   * Spacing below its ceiling anchor, and the top anchor of each later link is
   * Spacing below the bottom anchor of the link above, straight down.
   */
  lemma JointsStartTaut(i: int, j: nat)
    ensures var k := LinkJoint(LinkPos(i, 0), true);
      Sub(Add(LinkPos(i, 0), k.anchorA), k.anchorB) == Vec(0.0, k.max)
    ensures var k := LinkJoint(LinkPos(i, j + 1), false);
      Sub(Add(LinkPos(i, j + 1), k.anchorA), Add(LinkPos(i, j), k.anchorB)) == Vec(0.0, k.max)
  {
    LinksStacked(j);
  }

  /** What NewGame sets up for link j of chain i: its body, its segment and its joint. */
  predicate LinkOk(staticBody: Body, shapes: seq<Shape>, joints: seq<Constraint>, i: int, j: nat)
    requires j < |shapes| && j < |joints|
    reads shapes[j].body, joints[j]
  {
    var link := shapes[j].body;
    && link.kind == BodyKind.Dynamic && link.mass == Finite(LinkMass) && link.position == LinkPos(i, j)
    && shapes[j].geom == Shapes.SegmentGeom(LinkWidth, LinkHeight)
    && joints[j].a == link
    && joints[j].b == (if j == 0 then staticBody else shapes[j - 1].body)
    && joints[j].kind == LinkJoint(LinkPos(i, j), j == 0)
    && joints[j].maxForce == Finite(BreakingForce) && joints[j].breakable && !joints[j].collideBodies
  }

  /** What NewGame sets up for chain i: LinkCount links, each as LinkOk says. */
  predicate ChainOk(staticBody: Body, shapes: seq<Shape>, joints: seq<Constraint>, i: int)
    reads set s | s in shapes :: s.body, set c | c in joints
  {
    |shapes| == LinkCount && |joints| == LinkCount
    && forall j :: 0 <= j < LinkCount ==> LinkOk(staticBody, shapes, joints, i, j)
  }

  /**
   * Appending a link set up as LinkOk asks keeps LinkOk for every link: the
   * earlier ones read nothing of the new one.
   */
  lemma LinkOkSnoc(staticBody: Body, shapes: seq<Shape>, joints: seq<Constraint>, shape: Shape, joint: Constraint, i: int)
    requires |shapes| == |joints|
    requires forall k :: 0 <= k < |shapes| ==> LinkOk(staticBody, shapes, joints, i, k)
    requires var j := |shapes|;
      && shape.body.kind == BodyKind.Dynamic && shape.body.mass == Finite(LinkMass) && shape.body.position == LinkPos(i, j)
      && shape.geom == Shapes.SegmentGeom(LinkWidth, LinkHeight)
      && joint.a == shape.body && joint.b == (if j == 0 then staticBody else shapes[j - 1].body)
      && joint.kind == LinkJoint(LinkPos(i, j), j == 0)
      && joint.maxForce == Finite(BreakingForce) && joint.breakable && !joint.collideBodies
    ensures forall k :: 0 <= k <= |shapes| ==> LinkOk(staticBody, shapes + [shape], joints + [joint], i, k)
  {
    forall k | 0 <= k <= |shapes|
      ensures LinkOk(staticBody, shapes + [shape], joints + [joint], i, k)
    {
      if k < |shapes| {
        assert LinkOk(staticBody, shapes, joints, i, k);
        assert (shapes + [shape])[k] == shapes[k] && (joints + [joint])[k] == joints[k];
        assert k > 0 ==> (shapes + [shape])[k - 1] == shapes[k - 1];
      } else {
        assert k > 0 ==> (shapes + [shape])[k - 1] == shapes[k - 1];
      }
    }
  }

  /** The joints of a chain as a set, one more joint at a time. */
  lemma JointSetSnoc(joints: seq<Constraint>, joint: Constraint)
    ensures (set c | c in joints + [joint]) == (set c | c in joints) + {joint}
  {
  }

  function BodiesOf(shapes: seq<Shape>): (r: seq<Body>)
    ensures |r| == |shapes| && forall k :: 0 <= k < |shapes| ==> r[k] == shapes[k].body
  {
    if shapes == [] then [] else BodiesOf(shapes[..|shapes| - 1]) + [shapes[|shapes| - 1].body]
  }

  /** One link: a segment body at pos, its slide joint, and the joint's breaking settings. */
  method AddLink(space: Space, pos: Vec, prev: Body?) returns (shape: Shape, joint: Constraint)
    modifies space
    ensures fresh(shape) && fresh(shape.body) && fresh(joint)
    ensures shape.body.kind == BodyKind.Dynamic && shape.body.mass == Finite(LinkMass) && shape.body.position == pos
    ensures shape.geom == Shapes.SegmentGeom(LinkWidth, LinkHeight)
    ensures joint.a == shape.body && joint.kind == LinkJoint(pos, prev == null)
    ensures prev == null ==> joint.b == space.staticBody
    ensures prev != null ==> joint.b == prev
    ensures joint.maxForce == Finite(BreakingForce) && joint.breakable && !joint.collideBodies
    ensures space.bodies == old(space.bodies) + [shape.body] && space.shapes == old(space.shapes) + [shape]
    ensures space.constraints == old(space.constraints) + {joint}
    ensures space.pendingRemovals == old(space.pendingRemovals) && space.steps == old(space.steps)
    ensures space.gravity == old(space.gravity) && space.sleepTimeThreshold == old(space.sleepTimeThreshold)
  {
    var sprite;
    shape, sprite := Shapes.AddSegment(space, pos, LinkMass, LinkWidth, LinkHeight);
    if prev == null {
      joint := new Constraint(shape.body, space.staticBody, LinkJoint(pos, true));
    } else {
      joint := new Constraint(shape.body, prev, LinkJoint(pos, false));
    }
    space.AddConstraint(joint);
    joint.maxForce := Finite(BreakingForce);
    joint.breakable := true;
    joint.collideBodies := false;
  }

  /** The inner loop of NewGame: the LinkCount links of chain i, top to bottom, each hung from the one before. */
  method AddChain(space: Space, i: int) returns (shapes: seq<Shape>, joints: seq<Constraint>)
    modifies space
    ensures ChainOk(space.staticBody, shapes, joints, i)
    ensures forall j :: 0 <= j < LinkCount ==> fresh(shapes[j].body) && fresh(joints[j])
    ensures space.bodies == old(space.bodies) + BodiesOf(shapes) && space.shapes == old(space.shapes) + shapes
    ensures space.constraints == old(space.constraints) + set c | c in joints
    ensures space.pendingRemovals == old(space.pendingRemovals) && space.steps == old(space.steps)
    ensures space.gravity == old(space.gravity) && space.sleepTimeThreshold == old(space.sleepTimeThreshold)
  {
    shapes, joints := [], [];
    while |shapes| < LinkCount
      invariant |shapes| <= LinkCount && |joints| == |shapes|
      invariant forall k :: 0 <= k < |shapes| ==> fresh(shapes[k].body) && fresh(joints[k])
      invariant forall k :: 0 <= k < |shapes| ==> LinkOk(space.staticBody, shapes, joints, i, k)
      invariant space.bodies == old(space.bodies) + BodiesOf(shapes) && space.shapes == old(space.shapes) + shapes
      invariant space.constraints == old(space.constraints) + set c | c in joints
      invariant space.pendingRemovals == old(space.pendingRemovals) && space.steps == old(space.steps)
      invariant space.gravity == old(space.gravity) && space.sleepTimeThreshold == old(space.sleepTimeThreshold)
      decreases LinkCount - |shapes|
    {
      shapes, joints := NextLink(space, i, shapes, joints);
    }
  }

  /** One turn of AddChain's loop: the next link below the ones made so far, hung from the last of them. */
  method NextLink(space: Space, i: int, shapes: seq<Shape>, joints: seq<Constraint>) returns (shapes': seq<Shape>, joints': seq<Constraint>)
    requires |shapes| == |joints|
    requires forall k :: 0 <= k < |shapes| ==> LinkOk(space.staticBody, shapes, joints, i, k)
    modifies space
    ensures |shapes'| == |shapes| + 1 && |joints'| == |joints| + 1
    ensures shapes' == shapes + [shapes'[|shapes|]] && joints' == joints + [joints'[|joints|]]
    ensures fresh(shapes'[|shapes|].body) && fresh(joints'[|joints|])
    ensures forall k :: 0 <= k < |shapes'| ==> LinkOk(space.staticBody, shapes', joints', i, k)
    ensures space.bodies == old(space.bodies) + [shapes'[|shapes|].body] && BodiesOf(shapes') == BodiesOf(shapes) + [shapes'[|shapes|].body]
    ensures space.shapes == old(space.shapes) + [shapes'[|shapes|]]
    ensures space.constraints == old(space.constraints) + {joints'[|joints|]}
    ensures (set c | c in joints') == (set c | c in joints) + {joints'[|joints|]}
    ensures space.pendingRemovals == old(space.pendingRemovals) && space.steps == old(space.steps)
    ensures space.gravity == old(space.gravity) && space.sleepTimeThreshold == old(space.sleepTimeThreshold)
  {
    var prev: Body? := if shapes == [] then null else shapes[|shapes| - 1].body;
    var shape, joint := AddLink(space, LinkPos(i, |shapes|), prev);
    LinkOkSnoc(space.staticBody, shapes, joints, shape, joint, i);
    assert BodiesOf(shapes + [shape]) == BodiesOf(shapes) + [shape.body];
    JointSetSnoc(joints, joint);
    shapes', joints' := shapes + [shape], joints + [joint];
  }

  /** The outer loop of NewGame: ChainCount chains, left to right. */
  method AddChains(space: Space) returns (chains: seq<seq<Shape>>, joints: seq<seq<Constraint>>)
    modifies space
    ensures |chains| == ChainCount && |joints| == ChainCount
    ensures forall i :: 0 <= i < ChainCount ==>
      ChainOk(space.staticBody, chains[i], joints[i], i) && forall j :: 0 <= j < LinkCount ==> fresh(chains[i][j].body) && fresh(joints[i][j])
    ensures |space.bodies| == |old(space.bodies)| + ChainCount * LinkCount
    ensures |space.shapes| == |old(space.shapes)| + ChainCount * LinkCount
    ensures space.constraints == old(space.constraints) + set i, c | 0 <= i < ChainCount && c in joints[i] :: c
    ensures space.pendingRemovals == old(space.pendingRemovals) && space.steps == old(space.steps)
    ensures space.gravity == old(space.gravity) && space.sleepTimeThreshold == old(space.sleepTimeThreshold)
  {
    chains, joints := [], [];
    var i := 0;
    while i < ChainCount
      invariant 0 <= i <= ChainCount && |chains| == i && |joints| == i
      invariant forall c :: 0 <= c < i ==>
        ChainOk(space.staticBody, chains[c], joints[c], c) && forall j :: 0 <= j < LinkCount ==> fresh(chains[c][j].body) && fresh(joints[c][j])
      invariant |space.bodies| == |old(space.bodies)| + i * LinkCount
      invariant |space.shapes| == |old(space.shapes)| + i * LinkCount
      invariant space.constraints == old(space.constraints) + set c, x | 0 <= c < i && x in joints[c] :: x
      invariant space.pendingRemovals == old(space.pendingRemovals) && space.steps == old(space.steps)
      invariant space.gravity == old(space.gravity) && space.sleepTimeThreshold == old(space.sleepTimeThreshold)
    {
      var shapes, js := AddChain(space, i);
      JointsSnoc(joints, js);
      chains, joints := chains + [shapes], joints + [js];
      i := i + 1;
    }
  }

  /** The joints of the chains as one set, one more chain at a time. */
  lemma JointsSnoc(joints: seq<seq<Constraint>>, js: seq<Constraint>)
    ensures (set c, x | 0 <= c < |joints| + 1 && x in (joints + [js])[c] :: x)
         == (set c, x | 0 <= c < |joints| && x in joints[c] :: x) + set x | x in js
  {
    var l := set c, x | 0 <= c < |joints| + 1 && x in (joints + [js])[c] :: x;
    var r := (set c, x | 0 <= c < |joints| && x in joints[c] :: x) + set x | x in js;
    forall x | x in l ensures x in r {
      var c :| 0 <= c < |joints| + 1 && x in (joints + [js])[c];
      if c < |joints| {
        assert x in joints[c];
      }
    }
    forall x | x in r ensures x in l {
      if x in js {
        assert x in (joints + [js])[|joints|];
      } else {
        var c :| 0 <= c < |joints| && x in joints[c];
        assert x in (joints + [js])[c];
      }
    }
  }

  // ---------------------------------------------------------------------------
  // Walls (chain/chain.go:50-58)

  /** The wall list: four point pairs, one per screen edge. */
  const WallPoints: seq<Vec> := [
    Vec(0.0, 0.0), Vec(0.0, ScreenHeight),
    Vec(0.0, ScreenHeight), Vec(ScreenWidth, ScreenHeight),
    Vec(ScreenWidth, ScreenHeight), Vec(ScreenWidth, 0.0),
    Vec(ScreenWidth, 0.0), Vec(0.0, 0.0)]

  /** The lengths of the four walls, in list order. */
  const WallLengths: seq<real> := [ScreenHeight, ScreenWidth, ScreenHeight, ScreenWidth]

  /**
   * The wall loop's pairs: points 0 and 1, 2 and 3, and so on; a last
   * unpaired point is skipped.
   */
  function WallPairs(points: seq<Vec>): (r: seq<(Vec, Vec)>)
    ensures |r| == |points| / 2
    ensures forall k :: 0 <= k < |r| ==> r[k] == (points[2 * k], points[2 * k + 1])
  {
    if |points| < 2 then [] else [(points[0], points[1])] + WallPairs(points[2..])
  }

  /**
   * The walls outline the screen: four edges, each joined to the next at a
   * corner, the last back to the first, each as long as its listed length.
   */
  lemma WallsOutlineScreen()
    ensures var w := WallPairs(WallPoints);
      && |w| == 4 && |WallLengths| == 4
      && w[0].0 == Zero && w[1].0 == Vec(0.0, ScreenHeight) && w[2].0 == Vec(ScreenWidth, ScreenHeight) && w[3].0 == Vec(ScreenWidth, 0.0)
      && w[0].1 == w[1].0 && w[1].1 == w[2].0 && w[2].1 == w[3].0 && w[3].1 == w[0].0
      && forall k :: 0 <= k < 4 ==> Shapes.IsDistance(WallLengths[k], w[k].0, w[k].1)
  {
    var w := WallPairs(WallPoints);
    assert w[0] == (WallPoints[0], WallPoints[1]) && w[1] == (WallPoints[2], WallPoints[3]);
    assert w[2] == (WallPoints[4], WallPoints[5]) && w[3] == (WallPoints[6], WallPoints[7]);
  }

  /**
   * The wall loop: a wall on the static body for each pair of points, with
   * radius 0, in pair order; lengths[k] is the length of pair k.
   */
  method AddWalls(space: Space, points: seq<Vec>, lengths: seq<real>) returns (walls: seq<Shape>)
    requires |lengths| == |points| / 2
    requires forall k :: 0 <= k < |lengths| ==> Shapes.IsDistance(lengths[k], points[2 * k], points[2 * k + 1])
    modifies space
    ensures |walls| == |points| / 2 && space.shapes == old(space.shapes) + walls
    ensures forall k :: 0 <= k < |walls| ==> var p := WallPairs(points)[k];
      && walls[k].body == space.staticBody
      && walls[k].geom == Segment(Shapes.WallEnds(p.0, p.1).0, Shapes.WallEnds(p.0, p.1).1, 0.0)
    ensures space.bodies == old(space.bodies) && space.constraints == old(space.constraints)
    ensures space.pendingRemovals == old(space.pendingRemovals) && space.steps == old(space.steps)
    ensures space.gravity == old(space.gravity) && space.sleepTimeThreshold == old(space.sleepTimeThreshold)
  {
    walls := [];
    var i := 0;
    while i < |points| - 1
      invariant 0 <= i <= |points| && i % 2 == 0 && |walls| == i / 2
      invariant i < |points| - 1 || |walls| == |points| / 2
      invariant space.shapes == old(space.shapes) + walls
      invariant forall k :: 0 <= k < |walls| ==> var p := WallPairs(points)[k];
        && walls[k].body == space.staticBody
        && walls[k].geom == Segment(Shapes.WallEnds(p.0, p.1).0, Shapes.WallEnds(p.0, p.1).1, 0.0)
      invariant space.bodies == old(space.bodies) && space.constraints == old(space.constraints)
      invariant space.pendingRemovals == old(space.pendingRemovals) && space.steps == old(space.steps)
      invariant space.gravity == old(space.gravity) && space.sleepTimeThreshold == old(space.sleepTimeThreshold)
      decreases |points| - i
    {
      var wall, sprite := Shapes.AddWall(space, space.staticBody, points[i], points[i + 1], 0.0, lengths[i / 2]);
      walls := walls + [wall];
      i := i + 2;
    }
  }

  // ---------------------------------------------------------------------------
  // The game (chain/chain.go:40-110)

  class Game {
    const space: Space
    const input: Input.Controller
    /** The links of each chain, top to bottom, and their joints. */
    const chains: seq<seq<Shape>>
    const joints: seq<seq<Constraint>>

    /**
     * NewGame without the ball: gravity (0, 100), sleeping after 0.5 s, the
     * four screen walls, then the chains.
     */
    constructor ()
      ensures fresh(space) && fresh(input) && input.Valid()
      ensures space.gravity == Vec(0.0, 100.0) && space.sleepTimeThreshold == 0.5
      ensures |space.shapes| == 4 + ChainCount * LinkCount && |space.bodies| == ChainCount * LinkCount
      ensures |chains| == ChainCount && |joints| == ChainCount
      ensures forall i :: 0 <= i < ChainCount ==> ChainOk(space.staticBody, chains[i], joints[i], i)
      ensures space.constraints == set i, c | 0 <= i < ChainCount && c in joints[i] :: c
      ensures space.pendingRemovals == {} && space.steps == []
    {
      var s := new Space();
      s.gravity := Vec(0.0, 100.0);
      s.sleepTimeThreshold := 0.5;
      WallsOutlineScreen();
      var walls := AddWalls(s, WallPoints, WallLengths);
      var cs, js := AddChains(s);
      space := s;
      input := new Input.Controller();
      chains, joints := cs, js;
    }

    /**
     * Update: the shared pointer handling, then one step of 1/maxTPS. In
     * the step the solver ends with the given impulse on each joint it ran;
     * the breakable hook queues the strained joints and they are gone when
     * the step ends. The ghost results are the touch table and mouse joint
     * after the press phase, and the joints after the pointer handling.
     */
    method Update(f: Input.Frame, maxTPS: nat, impulses: map<Constraint, real>)
      returns (ghost pressed: map<int, Input.TouchInfo>, ghost pressedMouse: Option<Constraint>, ghost handled: set<Constraint>)
      requires input.Valid() && maxTPS > 0
      modifies input, space, input.mouseBody, input.owner.Keys
      ensures input.Valid()
      ensures f.mousePressed ==> (pressedMouse.Some? <==> Grab.GrabSucceeds(f.mouseQuery))
      ensures !f.mousePressed ==> pressedMouse == old(input.mouseJoint)
      ensures input.mouseJoint == if pressedMouse.Some? && f.mouseReleased then None else pressedMouse
      ensures pressed.Keys == old(input.touches).Keys + f.presses.Keys
      ensures input.touches == Input.Survivors(pressed, f.released)
      ensures forall id :: id in input.touches && id in f.presses ==>
        input.touches[id].body.position == Input.TouchPosition(f, id) && input.touches[id].body.velocity == Zero
      ensures forall id :: id in input.touches && id !in f.presses ==>
        && input.touches[id].body.position == Input.Dragged(old(input.touches[id].body.position), Input.TouchPosition(f, id))
        && input.touches[id].body.velocity == Input.DragVelocity(old(input.touches[id].body.position), Input.TouchPosition(f, id))
      ensures input.mouseBody.position == Input.Dragged(old(input.mouseBody.position), f.cursor)
      ensures handled ==
        old(space.constraints)
        + (if f.mousePressed && pressedMouse.Some? then {pressedMouse.value} else {})
        + Input.JointsOf(pressed, f.presses.Keys)
        - Input.DroppedJoints(pressed, f.released)
        - (if pressedMouse.Some? && f.mouseReleased then {pressedMouse.value} else {})
      ensures space.constraints == handled - old(space.pendingRemovals) - Broken(handled, impulses, 1.0 / maxTPS as real)
      ensures space.steps == old(space.steps) + [1.0 / maxTPS as real]
      ensures space.pendingRemovals == {}
      ensures space.bodies == old(space.bodies) && space.shapes == old(space.shapes)
    {
      pressed, pressedMouse := input.UpdateInput(space, f);
      handled := space.constraints;
      var dt := 1.0 / maxTPS as real;
      PostSolveAll(space, impulses, dt);
      space.Step(dt);
    }
  }
}
