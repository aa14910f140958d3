// The grab decision shared by the pointer-drag controllers (input.go, and
// its copies in game.go and tumble/tumble.go, which are the same code): the
// two collision filters that keep walls out of reach, and handleGrab, which
// pins the shape under a pointer to the pointer's proxy body with a pivot.
module Grab {
  import opened Geometry
  import opened Engine

  /** Bit 31 of the category and mask words marks what a pointer may pick up. */
  const GrabbableMaskBit: bv64 := 1 << 31

  const Grabbable := ShapeFilter(NoGroup, GrabbableMaskBit, GrabbableMaskBit)

  const NotGrabbable := ShapeFilter(NoGroup, !GrabbableMaskBit, !GrabbableMaskBit)

  /**
   * The two filters are complementary: neither's categories meet the other's
   * mask, so a pointer query with Grabbable never reports a NotGrabbable
   * shape, while both interact with an ordinary shape carrying the default
   * filter.
   */
  lemma FiltersComplementary()
    ensures Grabbable.categories & NotGrabbable.mask == 0 && NotGrabbable.categories & Grabbable.mask == 0
    ensures Grabbable.categories | NotGrabbable.categories == AllCategories
    ensures Rejects(Grabbable, NotGrabbable) && Rejects(NotGrabbable, Grabbable)
    ensures !Rejects(Grabbable, DefaultFilter) && !Rejects(NotGrabbable, DefaultFilter)
    ensures !Rejects(Grabbable, Grabbable) && !Rejects(NotGrabbable, NotGrabbable)
  {
  }

  /** The query radius: points within 5 units of a shape grab it. */
  const GrabRadius: real := 5.0

  /** math.MaxFloat64, written out. */
  const MaxFloat64: real := 179769313486231570814527423731704356798070567525844996598917476803157260780028538760589558632766878171540458953514382464234321326889464182768467546703537516986049910576551282076245490090389328944075868508455133942304583236903222948165808559332123348274797826204144723168738177180919299881250404026184124858368.0

  const GrabMaxForce: real := 50000.0

  /** The pivot's error bias: (1 - 0.15)^60, so 15% of the error is corrected per 1/60 s. */
  const GrabErrorBias: real := Pow(1.0 - 0.15, 60)

  /**
   * What PointQueryNearest(pos, GrabRadius, Grabbable) reported: no shape, or
   * the body of the nearest shape, the nearest point on it and the signed
   * distance to it (negative inside the shape).
   */
  datatype QueryInfo = NoShape | Hit(body: Body, point: Vec, distance: real)

  /** The body has a finite mass below math.MaxFloat64 (static and kinematic bodies have +Inf). */
  predicate Movable(mass: Extended)
  {
    mass.Finite? && mass.value < MaxFloat64
  }

  predicate GrabSucceeds(info: QueryInfo)
  {
    info.Hit? && Movable(info.body.mass)
  }

  /** The world point to pin: the nearest point when the press is outside the shape, else the press itself. */
  function Anchor(info: QueryInfo, pos: Vec): (p: Vec)
    requires info.Hit?
    ensures info.distance > 0.0 ==> p == info.point
    ensures info.distance <= 0.0 ==> p == pos
  {
    if info.distance > 0.0 then info.point else pos
  }

  /** The pivot of a successful grab: the proxy's origin pinned to the anchor, in the shape body's frame. */
  function GrabPivot(info: QueryInfo, pos: Vec): JointKind
    requires info.Hit?
    reads info.body
  {
    Pivot(Zero, WorldToLocal(info.body, Anchor(info, pos)))
  }

  /** The grab pivot is stiffer than the library's default: it corrects more of its error per second. */
  lemma GrabBiasBounds()
    ensures 0.0 < GrabErrorBias < 1.0
    ensures 0.0 < DefaultErrorBias < 1.0
    ensures GrabErrorBias < DefaultErrorBias
  {
    PowBetweenZeroAndOne(0.85, 60);
    PowBetweenZeroAndOne(0.9, 60);
    PowMonotoneBase(0.85, 0.9, 60);
  }

  /**
   * handleGrab: on a movable hit, adds exactly one new pivot joint between the
   * proxy and the shape's body, with force limit 50000 and error bias
   * 0.85^60, and returns it; otherwise adds nothing and returns nil.
   */
  method HandleGrab(space: Space, info: QueryInfo, pos: Vec, proxy: Body) returns (joint: Option<Constraint>)
    modifies space
    ensures joint.Some? <==> GrabSucceeds(info)
    ensures joint.None? ==> space.constraints == old(space.constraints)
    ensures joint.Some? ==>
      && fresh(joint.value)
      && space.constraints == old(space.constraints) + {joint.value}
      && joint.value.a == proxy && joint.value.b == info.body
      && joint.value.kind == GrabPivot(info, pos)
      && joint.value.maxForce == Finite(GrabMaxForce) && joint.value.errorBias == GrabErrorBias
      && joint.value.collideBodies && !joint.value.breakable
    ensures space.bodies == old(space.bodies) && space.shapes == old(space.shapes)
    ensures space.pendingRemovals == old(space.pendingRemovals) && space.steps == old(space.steps)
  {
    if GrabSucceeds(info) {
      var c := new Constraint(proxy, info.body, GrabPivot(info, pos));
      c.maxForce := Finite(GrabMaxForce);
      c.errorBias := GrabErrorBias;
      space.AddConstraint(c);
      joint := Some(c);
    } else {
      joint := None;
    }
  }
}
