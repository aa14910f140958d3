// The platformer controller of player/player.go: ground detection from the
// contact normals, jump and boost, surface velocity and friction, air control
// and the fall-speed clamp.

module Platformer {
  import opened Geometry
  import opened Engine

  // Controller constants (player/player.go:16-29)
  const PlayerVelocity: real := 500.0
  const PlayerGroundAccelTime: real := 0.1
  const PlayerGroundAccel: real := PlayerVelocity / PlayerGroundAccelTime
  const PlayerAirAccelTime: real := 0.25
  const PlayerAirAccel: real := PlayerVelocity / PlayerAirAccelTime
  const JumpHeight: real := 50.0
  const JumpBoostHeight: real := 55.0
  const FallVelocity: real := 900.0
  const Gravity: real := 2000.0

  /** The length of each of the three substeps of an Update. */
  const SubstepDt: real := 1.0 / 180.0

  /** The keys the controller polls: W/Up jump, A/Left and D/Right steer. */
  datatype Held = Held(w: bool, up: bool, a: bool, left: bool, d: bool, right: bool)

  function JumpHeld(k: Held): bool { k.w || k.up }

  // ---------------------------------------------------------------------------
  // Ground detection (player/player.go:40-53)

  /**
   * The grounding normal after visiting the contacts in order: the negated
   * contact normal with the smallest Y, a later one replacing the current
   * only when strictly lower, starting from the zero vector. It never points up.
   */
  function Lowest(normals: seq<Vec>): (g: Vec)
    ensures g.y <= 0.0
  {
    if normals == [] then Zero
    else
      var g := Lowest(normals[..|normals| - 1]);
      var n := Neg(normals[|normals| - 1]);
      if n.y < g.y then n else g
  }

  /**
   * The grounding normal is at least as low as every negated contact normal,
   * it is zero or one of them, and it points down exactly when some contact
   * normal has a positive Y.
   */
  lemma {:induction false} LowestIsMinimum(normals: seq<Vec>)
    ensures var g := Lowest(normals);
      && (forall i :: 0 <= i < |normals| ==> g.y <= -normals[i].y)
      && (g == Zero || exists i :: 0 <= i < |normals| && g == Neg(normals[i]))
      && (g.y < 0.0 <==> exists i :: 0 <= i < |normals| && normals[i].y > 0.0)
  {
    if normals != [] {
      var front := normals[..|normals| - 1];
      LowestIsMinimum(front);
      var g := Lowest(front);
      assert forall i :: 0 <= i < |front| ==> normals[i] == front[i];
      if g != Zero {
        var j :| 0 <= j < |front| && g == Neg(front[j]);
        assert g == Neg(normals[j]);
      }
      if g.y < 0.0 {
        var j :| 0 <= j < |front| && front[j].y > 0.0;
        assert normals[j].y > 0.0;
      }
    }
  }

  /** The EachArbiter callback as a loop over the contact normals of the player body. */
  method GroundNormal(normals: seq<Vec>) returns (g: Vec)
    ensures g == Lowest(normals)
  {
    g := Zero;
    var i := 0;
    while i < |normals|
      invariant 0 <= i <= |normals|
      invariant g == Lowest(normals[..i])
    {
      var n := Neg(normals[i]);
      if n.y < g.y {
        g := n;
      }
      assert normals[..i + 1][..i] == normals[..i];
      i := i + 1;
    }
    assert normals[..i] == normals;
  }

  // ---------------------------------------------------------------------------
  // Velocity update (player/player.go:55-89)

  /** The gravity handed to the integrator: none while the jump key is held and boost remains. */
  function GravityFor(jump: bool, boost: real, gravity: Vec): (g: Vec)
    ensures gravity != Zero ==> (g == Zero <==> jump && boost > 0.0)
    ensures g == Zero || g == gravity
  {
    if jump && boost > 0.0 then Zero else gravity
  }

  /**
   * The horizontal speed the player steers towards: -500 for A or Left,
   * +500 for D or Right, 0 for neither or both.
   */
  function TargetVx(left: bool, right: bool): (t: real)
    ensures t == -PlayerVelocity <==> left && !right
    ensures t == PlayerVelocity <==> right && !left
    ensures t == 0.0 <==> left == right
  {
    (if left then -PlayerVelocity else 0.0) + (if right then PlayerVelocity else 0.0)
  }

  /** Body.UpdateVelocity with the space's damping of 1 and no applied force: v + g·dt. */
  function Integrate(v: Vec, g: Vec, dt: real): Vec
  {
    Add(v, Scale(g, dt))
  }

  /**
   * What the controller does to the integrated velocity: in the air the
   * horizontal speed moves towards the target by at most PlayerAirAccel·dt;
   * then the vertical speed is clamped from below at -FallVelocity.
   */
  function Controlled(v: Vec, target: real, grounded: bool, dt: real): Vec
  {
    var vx := if grounded then v.x else LerpConst(v.x, target, PlayerAirAccel * dt);
    // cp.Clamp(v.Y, -FallVelocity, cp.INFINITY): with no upper bound, a maximum
    Vec(vx, Max(v.y, -FallVelocity))
  }

  /**
   * Controlled never lets the body rise faster than FallVelocity and leaves a
   * slower vertical speed alone; on the ground it keeps the horizontal speed;
   * in the air it moves it towards the target by at most PlayerAirAccel·dt
   * without overshooting, landing on the target when that is within reach.
   */
  lemma ControlledBounds(v: Vec, target: real, grounded: bool, dt: real)
    requires dt >= 0.0
    ensures var r := Controlled(v, target, grounded, dt);
      && r.y >= -FallVelocity
      && (v.y >= -FallVelocity ==> r.y == v.y)
      && (v.y < -FallVelocity ==> r.y == -FallVelocity)
      && (grounded ==> r.x == v.x)
      && (!grounded ==> -PlayerAirAccel * dt <= r.x - v.x <= PlayerAirAccel * dt)
      && (!grounded && v.x <= target ==> v.x <= r.x <= target)
      && (!grounded && target <= v.x ==> target <= r.x <= v.x)
      && (!grounded && target - v.x <= PlayerAirAccel * dt && v.x - target <= PlayerAirAccel * dt ==> r.x == target)
  {
    MulMonotone(PlayerAirAccel, 0.0, dt);
    LerpConstStep(v.x, target, PlayerAirAccel * dt);
  }

  /** The friction the feet get: PlayerGroundAccel / Gravity on the ground, none in the air. */
  function FeetFriction(grounded: bool): (f: real)
    ensures grounded ==> f == 2.5
    ensures !grounded ==> f == 0.0
  {
    if grounded then PlayerGroundAccel / Gravity else 0.0
  }

  /** One run of the velocity function: the player's new velocity from the old one. */
  function Stepped(v: Vec, k: Held, normals: seq<Vec>, boost: real, gravity: Vec, dt: real): Vec
  {
    var grounded := Lowest(normals).y < 0.0;
    Controlled(Integrate(v, GravityFor(JumpHeld(k), boost, gravity), dt), TargetVx(k.a || k.left, k.d || k.right), grounded, dt)
  }

  /**
   * What the physics library yields for the player in one substep: the
   * normals of its contacts, which the velocity function reads, and the
   * change the contact solver then makes to its velocity.
   */
  datatype Solve = Solve(normals: seq<Vec>, dv: Vec)

  /** The player's velocity after one Step(1/180): the velocity function's output, then the solver's change. */
  function Substepped(v: Vec, k: Held, s: Solve, boost: real, gravity: Vec): Vec
  {
    Add(Stepped(v, k, s.normals, boost, gravity, SubstepDt), s.dv)
  }

  /** The three substeps of one Update. */
  function ThreeSubsteps(v: Vec, k: Held, s1: Solve, s2: Solve, s3: Solve, boost: real, gravity: Vec): Vec
  {
    Substepped(Substepped(Substepped(v, k, s1, boost, gravity), k, s2, boost, gravity), k, s3, boost, gravity)
  }

  /**
   * The fall clamp bounds what the velocity function hands the solver, so
   * in free flight, where the solver changes nothing, no substep ends
   * falling faster than FallVelocity.
   */
  lemma FreeFallClamped(v: Vec, k: Held, s: Solve, boost: real, gravity: Vec)
    ensures Substepped(v, k, s, boost, gravity).y - s.dv.y >= -FallVelocity
    ensures s.dv == Zero ==> Substepped(v, k, s, boost, gravity).y >= -FallVelocity
  {
    var u := Integrate(v, GravityFor(JumpHeld(k), boost, gravity), SubstepDt);
    var c := Stepped(v, k, s.normals, boost, gravity, SubstepDt);
    assert c.y == Max(u.y, -FallVelocity);
  }

  /** The downward speed one substep of gravity adds: Gravity/180. */
  const SubstepFall: real := 100.0 / 9.0

  lemma SubstepFallIntegrates(v: Vec)
    ensures Integrate(v, Vec(0.0, Gravity), SubstepDt) == Vec(v.x, v.y + SubstepFall)
  {
    assert Gravity * SubstepDt == SubstepFall;
  }

  /** Neither the jump key nor a steering key is held. */
  predicate Idle(k: Held)
  {
    !JumpHeld(k) && !(k.a || k.left) && !(k.d || k.right)
  }

  /** One substep of an idle player at rest on the ground, before the solver: it has gained Gravity/180 of downward speed. */
  lemma IdleOnGround(k: Held, normals: seq<Vec>, boost: real)
    requires Idle(k) && Lowest(normals).y < 0.0
    ensures Stepped(Zero, k, normals, boost, Vec(0.0, Gravity), SubstepDt) == Vec(0.0, SubstepFall)
  {
    SubstepFallIntegrates(Zero);
    assert Stepped(Zero, k, normals, boost, Vec(0.0, Gravity), SubstepDt) == Controlled(Vec(0.0, SubstepFall), 0.0, true, SubstepDt);
  }

  /** A substep keeps the player's velocity exactly when the solver undoes what the velocity function did. */
  lemma SolverKeeps(v: Vec, k: Held, s: Solve, boost: real, gravity: Vec)
    ensures Substepped(v, k, s, boost, gravity) == v <==> s.dv == Sub(v, Stepped(v, k, s.normals, boost, gravity, SubstepDt))
  {
    AddCancel(Stepped(v, k, s.normals, boost, gravity, SubstepDt), s.dv, v);
  }

  /**
   * An idle player at rest on the ground stays at rest exactly when the
   * solver cancels one substep of gravity (screen coordinates, y down).
   */
  lemma RestsOnGround(k: Held, normals: seq<Vec>, boost: real, dv: Vec)
    requires Idle(k) && Lowest(normals).y < 0.0
    ensures Substepped(Zero, k, Solve(normals, dv), boost, Vec(0.0, Gravity)) == Zero <==> dv == Vec(0.0, -SubstepFall)
  {
    IdleOnGround(k, normals, boost);
    RestsIff(k, normals, boost, dv);
  }

  lemma RestsIff(k: Held, normals: seq<Vec>, boost: real, dv: Vec)
    requires Stepped(Zero, k, normals, boost, Vec(0.0, Gravity), SubstepDt) == Vec(0.0, SubstepFall)
    ensures Substepped(Zero, k, Solve(normals, dv), boost, Vec(0.0, Gravity)) == Zero <==> dv == Vec(0.0, -SubstepFall)
  {
    SolverKeeps(Zero, k, Solve(normals, dv), boost, Vec(0.0, Gravity));
  }

  /** A floor below the player, its contact normal pointing down from the player, grounds it. */
  lemma FloorGrounds()
    ensures Lowest([Vec(0.0, 1.0)]).y < 0.0
  {
    var floor := [Vec(0.0, 1.0)];
    LowestIsMinimum(floor);
    assert floor[0].y > 0.0;
  }

  // ---------------------------------------------------------------------------
  // Jumping (player/player.go:141-157)

  /** A jump starts only on the frame the key goes down, and only from the ground. */
  function Jumps(jump: bool, lastJump: bool, grounded: bool): bool
  {
    jump && !lastJump && grounded
  }

  /** The jump kick: -jumpV added to the vertical speed. */
  function Kick(v: Vec, jumpV: real): (r: Vec)
    ensures r.x == v.x && r.y == v.y - jumpV
  {
    Add(v, Vec(0.0, -jumpV))
  }

  /** The velocity after the jump check: kicked when a jump starts. */
  function JumpVelocity(v: Vec, jumped: bool, jumpV: real): Vec
  {
    if jumped then Kick(v, jumpV) else v
  }

  /** The boost after the jump check: a fresh one when a jump starts. */
  function JumpBoostFrom(boost: real, jumped: bool, jumpV: real): real
    requires jumpV > 0.0
  {
    if jumped then JumpBoost(jumpV) else boost
  }

  /** The boost a jump leaves: enough time at the jump speed to rise JumpBoostHeight more. */
  function JumpBoost(jumpV: real): (b: real)
    requires jumpV > 0.0
    ensures b * jumpV == JumpBoostHeight && b > 0.0
  {
    JumpBoostHeight / jumpV
  }

  /**
   * The jump speed √(2·JumpHeight·Gravity) lies in (412.5, 471.4), so a fresh
   * boost outlasts seven Updates' decrements of 1/60 but not eight: holding
   * the key keeps gravity off through the substeps of the jump's Update and
   * the seven after it.
   */
  lemma BoostLastsEightUpdates(jumpV: real)
    requires jumpV > 0.0 && jumpV * jumpV == 2.0 * JumpHeight * Gravity
    ensures JumpBoost(jumpV) - 7.0 / 60.0 > 0.0
    ensures JumpBoost(jumpV) - 8.0 / 60.0 <= 0.0
  {
    var b := JumpBoost(jumpV);
    SquareLess(jumpV, 3300.0 / 7.0);
    SquareLess(412.5, jumpV);
    var lo, hi := 7.0 / 60.0, 8.0 / 60.0;
    assert lo * jumpV < b * jumpV < hi * jumpV;
    FactorLess(jumpV, lo, b);
    FactorLess(jumpV, b, hi);
  }

  /** Between non-negative reals, squaring keeps a strict order. */
  lemma SquareLess(a: real, b: real)
    requires 0.0 <= a && 0.0 <= b && a * a < b * b
    ensures a < b
  {
    assert b + a > 0.0;
    assert (b - a) * (b + a) == b * b - a * a;
  }

  /** A strict order between two multiples of a positive number is one between the factors. */
  lemma FactorLess(x: real, p: real, q: real)
    requires x > 0.0 && p * x < q * x
    ensures p < q
  {
    assert (q - p) * x == q * x - p * x;
  }

  // ---------------------------------------------------------------------------
  // The player's state: the package globals of player/player.go:31-35

  class Player {
    const body: Body
    const shape: Shape
    /** √(2·JumpHeight·Gravity), the vertical speed a jump adds. */
    const jumpV: real
    var remainingBoost: real
    var grounded: bool
    var lastJumpState: bool

    /** jumpV is the positive root of 2·JumpHeight·Gravity. */
    predicate Valid()
      reads this
    {
      jumpV > 0.0 && jumpV * jumpV == 2.0 * JumpHeight * Gravity
    }

    constructor (body: Body, shape: Shape, jumpV: real)
      requires jumpV > 0.0 && jumpV * jumpV == 2.0 * JumpHeight * Gravity
      ensures Valid()
      ensures this.body == body && this.shape == shape && this.jumpV == jumpV
      ensures remainingBoost == 0.0 && !grounded && !lastJumpState
    {
      this.body := body;
      this.shape := shape;
      this.jumpV := jumpV;
      remainingBoost := 0.0;
      grounded := false;
      lastJumpState := false;
    }

    /**
     * playerUpdateVelocity: grounded from the lowest contact normal; gravity
     * off while boosting; the feet's surface velocity opposite the target
     * speed and their friction by groundedness; air control; the fall clamp.
     * The boost is never zeroed here, since the grounding normal never points up.
     */
    method UpdateVelocity(k: Held, normals: seq<Vec>, gravity: Vec, dt: real)
      modifies this, body, shape
      ensures grounded == (Lowest(normals).y < 0.0)
      ensures remainingBoost == old(remainingBoost) && lastJumpState == old(lastJumpState)
      ensures body.velocity == Stepped(old(body.velocity), k, normals, remainingBoost, gravity, dt)
      ensures body.velocity.y >= -FallVelocity
      ensures body.position == old(body.position) && body.rot == old(body.rot)
      ensures shape.surfaceV == Vec(-TargetVx(k.a || k.left, k.d || k.right), 0.0)
      ensures shape.friction == FeetFriction(grounded)
      ensures shape.elasticity == old(shape.elasticity) && shape.filter == old(shape.filter)
    {
      var jumpState := k.w || k.up;
      var groundNormal := GroundNormal(normals);
      grounded := groundNormal.y < 0.0;
      if groundNormal.y > 0.0 {
        assert false;
      }
      var boost := jumpState && remainingBoost > 0.0;
      var g := Zero;
      if !boost {
        g := gravity;
      }
      body.velocity := Integrate(body.velocity, g, dt);

      var targetVx := 0.0;
      if k.a || k.left {
        targetVx := targetVx - PlayerVelocity;
      }
      if k.d || k.right {
        targetVx := targetVx + PlayerVelocity;
      }

      shape.surfaceV := Vec(-targetVx, 0.0);
      if grounded {
        shape.friction := PlayerGroundAccel / Gravity;
      } else {
        shape.friction := 0.0;
      }

      if !grounded {
        var v := body.velocity;
        body.velocity := Vec(LerpConst(v.x, targetVx, PlayerAirAccel * dt), v.y);
      }

      var v := body.velocity;
      body.velocity := Vec(v.x, Max(v.y, -FallVelocity));
    }

    /**
     * One substep: the space steps by 1/180; within the step the player's
     * velocity function runs on the contacts' normals, and the solver then
     * changes the velocity by s.dv.
     */
    method Substep(k: Held, s: Solve, space: Space)
      modifies this, body, shape, space
      ensures grounded == (Lowest(s.normals).y < 0.0)
      ensures remainingBoost == old(remainingBoost) && lastJumpState == old(lastJumpState)
      ensures body.velocity == Substepped(old(body.velocity), k, s, remainingBoost, old(space.gravity))
      ensures Sub(body.velocity, s.dv).y >= -FallVelocity
      ensures space.steps == old(space.steps) + [SubstepDt] && space.gravity == old(space.gravity)
      ensures space.constraints == old(space.constraints) - old(space.pendingRemovals) && space.pendingRemovals == {}
      ensures space.bodies == old(space.bodies) && space.shapes == old(space.shapes)
      ensures shape.surfaceV == Vec(-TargetVx(k.a || k.left, k.d || k.right), 0.0)
      ensures shape.friction == FeetFriction(grounded)
    {
      UpdateVelocity(k, s.normals, space.gravity, SubstepDt);
      space.StepSolving(SubstepDt, body, s.dv);
    }

    /** The jump check at the start of Game.Update: the kick and a fresh boost on a grounded rising edge. */
    method Jump(jumpState: bool)
      requires Valid()
      modifies this, body
      ensures var jumped := Jumps(jumpState, old(lastJumpState), old(grounded));
        && body.velocity == JumpVelocity(old(body.velocity), jumped, jumpV)
        && remainingBoost == JumpBoostFrom(old(remainingBoost), jumped, jumpV)
      ensures grounded == old(grounded) && lastJumpState == old(lastJumpState)
    {
      if jumpState && !lastJumpState && grounded {
        body.velocity := Add(body.velocity, Vec(0.0, -jumpV));
        remainingBoost := JumpBoostHeight / jumpV;
      }
    }

    /** The three Step(1/180) calls of Game.Update, each with what the library yields in it. */
    method Substeps(k: Held, s1: Solve, s2: Solve, s3: Solve, space: Space)
      modifies this, body, shape, space
      ensures remainingBoost == old(remainingBoost) && lastJumpState == old(lastJumpState)
      ensures body.velocity == ThreeSubsteps(old(body.velocity), k, s1, s2, s3, remainingBoost, old(space.gravity))
      ensures Sub(body.velocity, s3.dv).y >= -FallVelocity
      ensures grounded == (Lowest(s3.normals).y < 0.0)
      ensures space.steps == old(space.steps) + [SubstepDt, SubstepDt, SubstepDt]
      ensures space.constraints == old(space.constraints) - old(space.pendingRemovals) && space.pendingRemovals == {}
      ensures shape.surfaceV == Vec(-TargetVx(k.a || k.left, k.d || k.right), 0.0)
      ensures shape.friction == FeetFriction(grounded)
    {
      Substep(k, s1, space);
      Substep(k, s2, space);
      Substep(k, s3, space);
    }

    /**
     * Game.Update: jump on the rising edge of the key while grounded, adding
     * -jumpV to the vertical speed and starting the boost; three substeps of
     * 1/180, each with the contacts' normals and the solver's change to the
     * velocity; then one frame's boost used up and the key state remembered.
     */
    method Update(k: Held, s1: Solve, s2: Solve, s3: Solve, space: Space)
      requires Valid()
      modifies this, body, shape, space
      ensures lastJumpState == JumpHeld(k)
      ensures var jumped := Jumps(JumpHeld(k), old(lastJumpState), old(grounded));
        var boost := JumpBoostFrom(old(remainingBoost), jumped, jumpV);
        && remainingBoost == boost - 1.0 / 60.0
        && body.velocity == ThreeSubsteps(JumpVelocity(old(body.velocity), jumped, jumpV), k, s1, s2, s3, boost, old(space.gravity))
      ensures grounded == (Lowest(s3.normals).y < 0.0)
      ensures Sub(body.velocity, s3.dv).y >= -FallVelocity
      ensures space.steps == old(space.steps) + [SubstepDt, SubstepDt, SubstepDt]
      ensures space.constraints == old(space.constraints) - old(space.pendingRemovals) && space.pendingRemovals == {}
      ensures shape.surfaceV == Vec(-TargetVx(k.a || k.left, k.d || k.right), 0.0)
      ensures shape.friction == FeetFriction(grounded)
    {
      var jumpState := k.w || k.up;
      Jump(jumpState);
      Substeps(k, s1, s2, s3, space);
      remainingBoost := remainingBoost - 1.0 / 60.0;
      lastJumpState := jumpState;
    }
  }
}
