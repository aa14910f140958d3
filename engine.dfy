// An abstract view of the physics space the glue code drives. The solver,
// collision detection and queries belong to the physics library, which is not
// part of this model: a Space here is the bookkeeping the glue code can
// observe (which bodies, shapes and constraints were added, which constraints
// were removed or queued for removal, and which time steps were taken).
module Engine {
  import opened Geometry

  datatype BodyKind = Dynamic | Kinematic | Static

  /** A possibly-nil reference. */
  datatype Option<T> = None | Some(value: T)

  /** Some member of a non-empty set; a loop over a Go map's keys takes its next key this way. */
  lemma SomeMember<T>(s: set<T>) returns (x: T)
    requires s != {}
    ensures x in s
  {
    if forall y :: y !in s {
      assert false;
    }
    x :| x in s;
  }

  /** A mass or a force limit, which the library may set to +Inf. */
  datatype Extended = Finite(value: real) | Infinity

  /** Collision filter: group, category bits and mask bits (Go `uint`, 64 bits). */
  datatype ShapeFilter = ShapeFilter(group: nat, categories: bv64, mask: bv64)

  const NoGroup: nat := 0
  const AllCategories: bv64 := 0xFFFF_FFFF_FFFF_FFFF

  /** The library's default filter, which every new shape carries. */
  const DefaultFilter := ShapeFilter(NoGroup, AllCategories, AllCategories)

  /**
   * ShapeFilter.Reject: two filters never interact when they share a
   * non-zero group, or when either one's categories miss the other's mask.
   */
  predicate Rejects(a: ShapeFilter, b: ShapeFilter)
  {
    (a.group != 0 && a.group == b.group) || a.categories & b.mask == 0 || b.categories & a.mask == 0
  }

  /** The library's default error bias for a new constraint: (1 - 0.1)^60. */
  const DefaultErrorBias: real := Pow(0.9, 60)

  class Body {
    var position: Vec
    var velocity: Vec
    /** Rotation of the body's frame as (cos, sin) of its angle. */
    var rot: Vec
    const kind: BodyKind
    const mass: Extended

    /** NewKinematicBody: infinite mass, at the origin, at rest. */
    constructor Kinematic()
      ensures kind == BodyKind.Kinematic && mass == Infinity
      ensures position == Zero && velocity == Zero && rot == Vec(1.0, 0.0)
    {
      kind := BodyKind.Kinematic;
      mass := Infinity;
      position := Zero;
      velocity := Zero;
      rot := Vec(1.0, 0.0);
    }

    /** NewBody(mass, moment): a dynamic body at the origin, at rest. */
    constructor Dynamic(m: real)
      ensures kind == BodyKind.Dynamic && mass == Finite(m)
      ensures position == Zero && velocity == Zero && rot == Vec(1.0, 0.0)
    {
      kind := BodyKind.Dynamic;
      mass := Finite(m);
      position := Zero;
      velocity := Zero;
      rot := Vec(1.0, 0.0);
    }

    /** The space's static body. */
    constructor Static()
      ensures kind == BodyKind.Static && mass == Infinity
      ensures position == Zero && velocity == Zero && rot == Vec(1.0, 0.0)
    {
      kind := BodyKind.Static;
      mass := Infinity;
      position := Zero;
      velocity := Zero;
      rot := Vec(1.0, 0.0);
    }
  }

  /** Body.WorldToLocal: the point p in the body's own frame. */
  function WorldToLocal(b: Body, p: Vec): Vec
    reads b
  {
    var d := Sub(p, b.position);
    Vec(d.x * b.rot.x + d.y * b.rot.y, d.y * b.rot.x - d.x * b.rot.y)
  }

  datatype Geom =
    | Segment(a: Vec, b: Vec, radius: real)
    | Box(width: real, height: real, radius: real)
    | Circle(radius: real, offset: Vec)

  class Shape {
    const body: Body
    const geom: Geom
    var elasticity: real
    var friction: real
    var filter: ShapeFilter
    var surfaceV: Vec

    constructor (body: Body, geom: Geom)
      ensures this.body == body && this.geom == geom
      ensures elasticity == 0.0 && friction == 0.0 && filter == DefaultFilter && surfaceV == Zero
    {
      this.body := body;
      this.geom := geom;
      elasticity := 0.0;
      friction := 0.0;
      filter := DefaultFilter;
      surfaceV := Zero;
    }
  }

  datatype JointKind =
    | Pivot(anchorA: Vec, anchorB: Vec)
    | Slide(anchorA: Vec, anchorB: Vec, min: real, max: real)

  class Constraint {
    const a: Body
    const b: Body
    const kind: JointKind
    var maxForce: Extended
    var errorBias: real
    var collideBodies: bool
    /** Whether the post-solve hook is the breakable-joint check. */
    var breakable: bool

    /** The library's defaults: unlimited force, collisions between the two bodies on, no hook. */
    constructor (a: Body, b: Body, kind: JointKind)
      ensures this.a == a && this.b == b && this.kind == kind
      ensures maxForce == Infinity && errorBias == DefaultErrorBias && collideBodies && !breakable
    {
      this.a := a;
      this.b := b;
      this.kind := kind;
      maxForce := Infinity;
      errorBias := DefaultErrorBias;
      collideBodies := true;
      breakable := false;
    }
  }

  class Space {
    var bodies: seq<Body>
    var shapes: seq<Shape>
    var constraints: set<Constraint>
    /** Constraints whose removal a post-step callback has queued. */
    var pendingRemovals: set<Constraint>
    /** The time step of every Step call so far, in order. */
    var steps: seq<real>
    var gravity: Vec
    var sleepTimeThreshold: real
    const staticBody: Body

    constructor ()
      ensures bodies == [] && shapes == [] && constraints == {} && pendingRemovals == {} && steps == []
      ensures gravity == Zero && staticBody.kind == BodyKind.Static && fresh(staticBody)
    {
      bodies := [];
      shapes := [];
      constraints := {};
      pendingRemovals := {};
      steps := [];
      gravity := Zero;
      sleepTimeThreshold := 0.0;
      staticBody := new Body.Static();
    }

    method AddBody(b: Body)
      modifies this
      ensures bodies == old(bodies) + [b]
      ensures shapes == old(shapes) && constraints == old(constraints)
      ensures pendingRemovals == old(pendingRemovals) && steps == old(steps)
      ensures gravity == old(gravity) && sleepTimeThreshold == old(sleepTimeThreshold)
    {
      bodies := bodies + [b];
    }

    method AddShape(s: Shape)
      modifies this
      ensures shapes == old(shapes) + [s]
      ensures bodies == old(bodies) && constraints == old(constraints)
      ensures pendingRemovals == old(pendingRemovals) && steps == old(steps)
      ensures gravity == old(gravity) && sleepTimeThreshold == old(sleepTimeThreshold)
    {
      shapes := shapes + [s];
    }

    method AddConstraint(c: Constraint)
      modifies this
      ensures constraints == old(constraints) + {c}
      ensures bodies == old(bodies) && shapes == old(shapes)
      ensures pendingRemovals == old(pendingRemovals) && steps == old(steps)
      ensures gravity == old(gravity) && sleepTimeThreshold == old(sleepTimeThreshold)
    {
      constraints := constraints + {c};
    }

    method RemoveConstraint(c: Constraint)
      modifies this
      ensures constraints == old(constraints) - {c}
      ensures bodies == old(bodies) && shapes == old(shapes)
      ensures pendingRemovals == old(pendingRemovals) && steps == old(steps)
    {
      constraints := constraints - {c};
    }

    /** AddPostStepCallback keyed by the constraint: a key is queued at most once. */
    method QueueRemoval(c: Constraint)
      modifies this
      ensures pendingRemovals == old(pendingRemovals) + {c}
      ensures bodies == old(bodies) && shapes == old(shapes)
      ensures constraints == old(constraints) && steps == old(steps)
    {
      pendingRemovals := pendingRemovals + {c};
    }

    /**
     * Step(dt): one step of length dt was taken and the queued post-step
     * removals ran at its end. The solver's effect on a body is
     * StepSolving's.
     */
    method Step(dt: real)
      modifies this
      ensures steps == old(steps) + [dt]
      ensures constraints == old(constraints) - old(pendingRemovals) && pendingRemovals == {}
      ensures bodies == old(bodies) && shapes == old(shapes) && gravity == old(gravity)
    {
      steps := steps + [dt];
      constraints := constraints - pendingRemovals;
      pendingRemovals := {};
    }

    /**
     * Step(dt) as it acts on one dynamic body b whose velocity function has
     * already run: the contact and joint solver then changes b's velocity by
     * dv. The solver belongs to the physics library, so dv is given to the
     * model rather than computed by it.
     */
    method StepSolving(dt: real, b: Body, dv: Vec)
      modifies this, b
      ensures steps == old(steps) + [dt]
      ensures constraints == old(constraints) - old(pendingRemovals) && pendingRemovals == {}
      ensures bodies == old(bodies) && shapes == old(shapes) && gravity == old(gravity)
      ensures b.velocity == Add(old(b.velocity), dv)
    {
      Step(dt);
      b.velocity := Add(b.velocity, dv);
    }
  }
}
