// tumble/tumble.go: a standalone demo whose Game owns its space and its own
// grab controller (mouse body, mouse joint and touch table, the fields of
// Input.Controller). Its Update differs from UpdateInput: it walks every id
// still touching, creating a proxy for an id it does not track yet and
// dragging the proxy of one it does; it releases without dragging; and it
// ends with exactly one fixed time step.
module Tumble {
  import opened Geometry
  import opened Engine
  import opened Grab
  import opened Input

  /**
   * The table t after the touch loop has handled the ids in done, starting
   * from t0: each untracked id among them has a new entry, whose proxy
   * owner0 does not know, with the grab's outcome, and every entry of t0 is
   * kept.
   */
  predicate TableSoFar(f: Frame, t0: map<int, TouchInfo>, owner0: map<Body, int>, t: map<int, TouchInfo>, done: set<int>)
  {
    && done <= f.presses.Keys
    && t.Keys == t0.Keys + done
    && (forall id :: id in t0 ==> t[id] == t0[id])
    && (forall id :: id in done && id !in t0 ==> PressedTouch(t[id], id, f.presses[id]) && t[id].body !in owner0)
  }

  /** The proxies of t0: each that the touch loop has handled is dragged from its position in p0, the rest are still there. */
  ghost predicate OldPlaced(f: Frame, t0: map<int, TouchInfo>, p0: map<int, Vec>, done: set<int>)
    reads set id | id in t0 :: t0[id].body
  {
    forall id :: id in t0 && id in p0 ==> ProxyPlaced(t0[id].body, p0[id], TouchPosition(f, id), id in done)
  }

  /** The proxies the touch loop has created so far are at rest at their touch positions. */
  ghost predicate NewPlaced(f: Frame, t0: map<int, TouchInfo>, t: map<int, TouchInfo>, done: set<int>)
    reads set id | id in t :: t[id].body
  {
    forall id :: id in done && id !in t0 && id in t ==>
      t[id].body.position == TouchPosition(f, id) && t[id].body.velocity == Zero
  }

  /**
   * Filing a new entry e under an id neither t0 nor done holds keeps the
   * table's shape, and the new entries' joints grow by e's joint.
   */
  lemma TableExtend(f: Frame, t0: map<int, TouchInfo>, owner0: map<Body, int>, t: map<int, TouchInfo>,
                    done: set<int>, id: int, e: TouchInfo, c0: set<Constraint>)
    requires TableSoFar(f, t0, owner0, t, done) && id in f.presses && id !in t0 && id !in done
    requires PressedTouch(e, id, f.presses[id]) && e.body !in owner0
    ensures TableSoFar(f, t0, owner0, t[id := e], done + {id})
    ensures (c0 + JointsOf(t, done - t0.Keys)) + JointsOf(t[id := e], {id}) ==
      c0 + JointsOf(t[id := e], (done + {id}) - t0.Keys)
  {
    JointsOfAdd(t, done - t0.Keys, id, e);
    assert (done + {id}) - t0.Keys == (done - t0.Keys) + {id};
  }

  class Game {
    const space: Space
    /** mouseBody, mouseJoint and touches of the demo's Game. */
    const input: Controller

    constructor (space: Space)
      ensures this.space == space && input.Valid() && fresh(input)
      ensures input.touches == map[] && input.mouseJoint.None?
    {
      this.space := space;
      input := new Controller();
    }

    /**
     * Where the touch loop stands once it has handled the ids in done,
     * starting from table t0, owner record owner0, proxy positions p0 and
     * joints c0: the table has the shape TableSoFar describes, its proxies
     * are placed as PlacedSoFar describes, and the space holds the new
     * entries' joints besides c0.
     */
    ghost predicate TouchedSoFar(f: Frame, t0: map<int, TouchInfo>, owner0: map<Body, int>, p0: map<int, Vec>,
                                 c0: set<Constraint>, done: set<int>)
      reads this, input, space, input.owner.Keys
    {
      && input.Valid() && TableValid(t0, input.mouseBody, owner0)
      && TableSoFar(f, t0, owner0, input.touches, done)
      && OldPlaced(f, t0, p0, done) && NewPlaced(f, t0, input.touches, done)
      && space.constraints == c0 + JointsOf(input.touches, done - t0.Keys)
    }

    /**
     * The touch loop: every id still touching (here f.presses holds each id
     * that ebiten.TouchIDs reports, with the grab query at its position) gets
     * a fresh proxy and a grab attempt if it is not tracked yet, and has its
     * proxy dragged towards its position otherwise.
     */
    method TouchLoop(f: Frame)
      requires input.Valid()
      modifies input`touches, input`owner, space, input.owner.Keys
      ensures input.Valid() && fresh(input.owner.Keys - old(input.owner).Keys)
      ensures input.touches.Keys == old(input.touches).Keys + f.presses.Keys
      ensures forall id :: id in old(input.touches) ==> input.touches[id] == old(input.touches)[id]
      ensures forall id :: id in f.presses && id !in old(input.touches) ==>
        var t := input.touches[id];
        && fresh(t.body) && t.body.position == TouchPosition(f, id) && t.body.velocity == Zero
        && PressedTouch(t, id, f.presses[id])
      ensures forall id :: id in old(input.touches) ==>
        ProxyPlaced(input.touches[id].body, old(input.touches[id].body.position), TouchPosition(f, id), id in f.presses)
      ensures space.constraints == old(space.constraints) + JointsOf(input.touches, f.presses.Keys - old(input.touches).Keys)
      ensures space.bodies == old(space.bodies) && space.shapes == old(space.shapes)
      ensures space.pendingRemovals == old(space.pendingRemovals) && space.steps == old(space.steps)
    {
      ghost var t0 := input.touches;
      ghost var owner0 := input.owner;
      ghost var p0 := map id | id in t0 :: t0[id].body.position;
      TouchAll(f, t0, owner0, p0, space.constraints);
      forall id | id in f.presses && id !in t0
        ensures fresh(input.touches[id].body)
      {
        assert input.touches[id].body in input.owner.Keys - owner0.Keys;
      }
    }

    /** The loop itself, from the state t0, owner0, p0, c0 it starts in to the state it leaves. */
    method TouchAll(f: Frame, ghost t0: map<int, TouchInfo>, ghost owner0: map<Body, int>,
                    ghost p0: map<int, Vec>, ghost c0: set<Constraint>)
      requires TableValid(t0, input.mouseBody, owner0) && owner0 == input.owner
      requires TouchedSoFar(f, t0, owner0, p0, c0, {})
      modifies input`touches, input`owner, space, owner0.Keys
      ensures TouchedSoFar(f, t0, owner0, p0, c0, f.presses.Keys)
      ensures fresh(input.owner.Keys - old(input.owner).Keys)
      ensures space.bodies == old(space.bodies) && space.shapes == old(space.shapes)
      ensures space.pendingRemovals == old(space.pendingRemovals) && space.steps == old(space.steps)
    {
      ghost var done: set<int> := {};
      var remaining := f.presses.Keys;
      while remaining != {}
        invariant remaining !! done && remaining + done == f.presses.Keys
        invariant TouchedSoFar(f, t0, owner0, p0, c0, done)
        invariant fresh(input.owner.Keys - old(input.owner).Keys)
        invariant space.bodies == old(space.bodies) && space.shapes == old(space.shapes)
        invariant space.pendingRemovals == old(space.pendingRemovals) && space.steps == old(space.steps)
        decreases remaining
      {
        ghost var next := SomeMember(remaining);
        var id :| id in remaining;
        TouchOne(f, id, t0, owner0, p0, c0, done);
        done := done + {id};
        remaining := remaining - {id};
      }
    }

    /** One turn of the touch loop, on an id still touching that it has not handled yet. */
    method TouchOne(f: Frame, id: int, ghost t0: map<int, TouchInfo>, ghost owner0: map<Body, int>,
                    ghost p0: map<int, Vec>, ghost c0: set<Constraint>, ghost done: set<int>)
      requires id in f.presses && id !in done
      requires TouchedSoFar(f, t0, owner0, p0, c0, done)
      modifies input`touches, input`owner, space, owner0.Keys
      ensures TouchedSoFar(f, t0, owner0, p0, c0, done + {id})
      ensures fresh(input.owner.Keys - old(input.owner).Keys)
      ensures space.bodies == old(space.bodies) && space.shapes == old(space.shapes)
      ensures space.pendingRemovals == old(space.pendingRemovals) && space.steps == old(space.steps)
    {
      if id !in input.touches {
        TouchNew(f, id, t0, owner0, p0, c0, done);
      } else {
        TouchTracked(f, id, t0, owner0, p0, c0, done);
      }
    }

    /** A turn of the touch loop on an id it does not track yet: a new proxy at rest and a grab attempt. */
    method TouchNew(f: Frame, id: int, ghost t0: map<int, TouchInfo>, ghost owner0: map<Body, int>,
                    ghost p0: map<int, Vec>, ghost c0: set<Constraint>, ghost done: set<int>)
      requires id in f.presses && id !in done && id !in t0
      requires TouchedSoFar(f, t0, owner0, p0, c0, done)
      modifies input`touches, input`owner, space
      ensures TouchedSoFar(f, t0, owner0, p0, c0, done + {id})
      ensures fresh(input.owner.Keys - old(input.owner).Keys)
      ensures space.bodies == old(space.bodies) && space.shapes == old(space.shapes)
      ensures space.pendingRemovals == old(space.pendingRemovals) && space.steps == old(space.steps)
    {
      ghost var t := input.touches;
      input.PressTouch(space, id, f.presses[id], TouchPosition(f, id));
      TableExtend(f, t0, owner0, t, done, id, input.touches[id], c0);
      forall j | j in t0 && j in p0
        ensures ProxyPlaced(t0[j].body, p0[j], TouchPosition(f, j), j in done + {id})
      {
        assert old(ProxyPlaced(t0[j].body, p0[j], TouchPosition(f, j), j in done));
      }
      forall j | j in done && j !in t0
        ensures input.touches[j].body.position == TouchPosition(f, j) && input.touches[j].body.velocity == Zero
      {
        assert input.touches[j] == t[j];
        assert old(t[j].body.position == TouchPosition(f, j) && t[j].body.velocity == Zero);
      }
    }

    /** A turn of the touch loop on a tracked id: its proxy is dragged towards the touch. */
    method TouchTracked(f: Frame, id: int, ghost t0: map<int, TouchInfo>, ghost owner0: map<Body, int>,
                        ghost p0: map<int, Vec>, ghost c0: set<Constraint>, ghost done: set<int>)
      requires id in f.presses && id !in done && id in t0
      requires TouchedSoFar(f, t0, owner0, p0, c0, done)
      modifies t0[id].body
      ensures TouchedSoFar(f, t0, owner0, p0, c0, done + {id})
    {
      var touch := input.touches[id];
      Drag(touch.body, TouchPosition(f, id));
      assert (done + {id}) - t0.Keys == done - t0.Keys;
      assert OldPlaced(f, t0, p0, done + {id}) by {
        forall j | j in t0 && j in p0
          ensures ProxyPlaced(t0[j].body, p0[j], TouchPosition(f, j), j in done + {id})
        {
          if j != id {
            assert input.owner[t0[j].body] != input.owner[touch.body];
            assert old(ProxyPlaced(t0[j].body, p0[j], TouchPosition(f, j), j in done));
          }
        }
      }
      assert NewPlaced(f, t0, input.touches, done + {id}) by {
        forall j | j in done && j !in t0
          ensures input.touches[j].body.position == TouchPosition(f, j) && input.touches[j].body.velocity == Zero
        {
          assert input.owner[input.touches[j].body] != input.owner[touch.body];
          assert old(input.touches[j].body.position == TouchPosition(f, j) && input.touches[j].body.velocity == Zero);
        }
      }
    }

    /**
     * Update: grab at a just-pressed cursor, walk the touch loop, drop the
     * mouse joint on release, drop released touches that hold a joint, drag
     * the mouse body towards the cursor, and advance the space by one step of
     * 1/maxTPS seconds. The ghost results are the table after the touch loop
     * and the mouse joint after the grab.
     */
    method Update(f: Frame, maxTPS: nat) returns (ghost touched: map<int, TouchInfo>, ghost pressedMouse: Option<Constraint>)
      requires input.Valid() && maxTPS > 0
      modifies input, space, input.mouseBody, input.owner.Keys
      ensures input.Valid()
      ensures f.mousePressed ==> (pressedMouse.Some? <==> GrabSucceeds(f.mouseQuery))
      ensures !f.mousePressed ==> pressedMouse == old(input.mouseJoint)
      ensures input.mouseJoint == if pressedMouse.Some? && f.mouseReleased then None else pressedMouse
      ensures touched.Keys == old(input.touches).Keys + f.presses.Keys
      ensures forall id :: id in old(input.touches) ==> touched[id] == old(input.touches)[id]
      ensures forall id :: id in f.presses && id !in old(input.touches) ==>
        fresh(touched[id].body) && PressedTouch(touched[id], id, f.presses[id])
      ensures input.touches == Survivors(touched, f.released)
      ensures forall id :: id in input.touches && id in old(input.touches) ==>
        ProxyPlaced(input.touches[id].body, old(input.touches[id].body.position), TouchPosition(f, id), id in f.presses)
      ensures forall id :: id in input.touches && id !in old(input.touches) ==>
        input.touches[id].body.position == TouchPosition(f, id) && input.touches[id].body.velocity == Zero
      ensures input.mouseBody.position == Dragged(old(input.mouseBody.position), f.cursor)
      ensures input.mouseBody.velocity == DragVelocity(old(input.mouseBody.position), f.cursor)
      ensures space.steps == old(space.steps) + [1.0 / maxTPS as real]
      ensures space.constraints ==
        (old(space.constraints)
         + (if f.mousePressed && pressedMouse.Some? then {pressedMouse.value} else {})
         + JointsOf(touched, f.presses.Keys - old(input.touches).Keys)
         - (if pressedMouse.Some? && f.mouseReleased then {pressedMouse.value} else {})
         - DroppedJoints(touched, f.released))
        - old(space.pendingRemovals)
      ensures space.pendingRemovals == {}
      ensures space.bodies == old(space.bodies) && space.shapes == old(space.shapes)
    {
      PressPhase(f);
      pressedMouse := input.mouseJoint;
      touched := input.touches;
      label touched:
      ReleasePhase(f);
      space.Step(1.0 / maxTPS as real);
      forall id | id in input.touches
        ensures id in old(input.touches) ==>
          ProxyPlaced(input.touches[id].body, old(input.touches[id].body.position), TouchPosition(f, id), id in f.presses)
        ensures id !in old(input.touches) ==>
          input.touches[id].body.position == TouchPosition(f, id) && input.touches[id].body.velocity == Zero
      {
        assert input.touches[id] == touched[id];
        assert old@touched(input.touches[id].body.position) == input.touches[id].body.position;
        assert old@touched(input.touches[id].body.velocity) == input.touches[id].body.velocity;
      }
    }

    /** The press half of Update: the grab at a just-pressed cursor, then the touch loop. */
    method PressPhase(f: Frame)
      requires input.Valid()
      modifies input`mouseJoint, input`touches, input`owner, space, input.owner.Keys
      ensures input.Valid() && fresh(input.owner.Keys - old(input.owner).Keys)
      ensures f.mousePressed ==> (input.mouseJoint.Some? <==> GrabSucceeds(f.mouseQuery))
      ensures !f.mousePressed ==> input.mouseJoint == old(input.mouseJoint)
      ensures input.touches.Keys == old(input.touches).Keys + f.presses.Keys
      ensures forall id :: id in old(input.touches) ==> input.touches[id] == old(input.touches)[id]
      ensures forall id :: id in f.presses && id !in old(input.touches) ==>
        var t := input.touches[id];
        && fresh(t.body) && t.body.position == TouchPosition(f, id) && t.body.velocity == Zero
        && PressedTouch(t, id, f.presses[id])
      ensures forall id :: id in old(input.touches) ==>
        ProxyPlaced(input.touches[id].body, old(input.touches[id].body.position), TouchPosition(f, id), id in f.presses)
      ensures input.mouseBody.position == old(input.mouseBody.position)
      ensures space.constraints ==
        old(space.constraints)
        + (if f.mousePressed && input.mouseJoint.Some? then {input.mouseJoint.value} else {})
        + JointsOf(input.touches, f.presses.Keys - old(input.touches).Keys)
      ensures space.bodies == old(space.bodies) && space.shapes == old(space.shapes)
      ensures space.pendingRemovals == old(space.pendingRemovals) && space.steps == old(space.steps)
    {
      input.PressMouse(space, f);
      TouchLoop(f);
    }

    /**
     * The release half of Update: the mouse release, the release loop, and
     * the mouse body's drag towards the cursor; no proxy moves.
     */
    method ReleasePhase(f: Frame)
      requires input.Valid()
      modifies input`mouseJoint, input`touches, space, input.mouseBody
      ensures input.Valid()
      ensures input.mouseJoint == if old(input.mouseJoint).Some? && f.mouseReleased then None else old(input.mouseJoint)
      ensures input.touches == Survivors(old(input.touches), f.released)
      ensures forall id :: id in input.touches ==>
        && input.touches[id].body.position == old(input.touches[id].body.position)
        && input.touches[id].body.velocity == old(input.touches[id].body.velocity)
      ensures input.mouseBody.position == Dragged(old(input.mouseBody.position), f.cursor)
      ensures input.mouseBody.velocity == DragVelocity(old(input.mouseBody.position), f.cursor)
      ensures space.constraints ==
        old(space.constraints)
        - (if old(input.mouseJoint).Some? && f.mouseReleased then {old(input.mouseJoint).value} else {})
        - DroppedJoints(old(input.touches), f.released)
      ensures space.bodies == old(space.bodies) && space.shapes == old(space.shapes)
      ensures space.pendingRemovals == old(space.pendingRemovals) && space.steps == old(space.steps)
    {
      input.ReleaseMouse(space, f);
      ReleaseTouches(f);
      Drag(input.mouseBody, f.cursor);
    }

    /**
     * The release loop of Update: a touch holding a joint that was just
     * released loses its joint from the space and leaves the table; nothing
     * is dragged here.
     */
    method ReleaseTouches(f: Frame)
      requires input.Valid()
      modifies input`touches, space
      ensures input.Valid()
      ensures input.touches == Survivors(old(input.touches), f.released)
      ensures space.constraints == old(space.constraints) - DroppedJoints(old(input.touches), f.released)
      ensures space.bodies == old(space.bodies) && space.shapes == old(space.shapes)
      ensures space.pendingRemovals == old(space.pendingRemovals) && space.steps == old(space.steps)
    {
      ghost var t0 := input.touches;
      ghost var done: set<int> := {};
      var remaining := input.touches.Keys;
      while remaining != {}
        invariant remaining !! done && remaining + done == t0.Keys
        invariant input.touches == Survivors(t0, f.released * done)
        invariant space.constraints == old(space.constraints) - DroppedJoints(t0, f.released * done)
        invariant space.bodies == old(space.bodies) && space.shapes == old(space.shapes)
        invariant space.pendingRemovals == old(space.pendingRemovals) && space.steps == old(space.steps)
        decreases remaining
      {
        ghost var next := SomeMember(remaining);
        var id :| id in remaining;
        assert input.touches[id] == t0[id];
        var touch := input.touches[id];
        SurvivorsAdd(t0, f.released, done, id);
        DroppedJointsAdd(t0, f.released, done, id);
        if touch.joint.Some? && id in f.released {
          space.RemoveConstraint(touch.joint.value);
          input.touches := input.touches - {id};
        }
        done := done + {id};
        remaining := remaining - {id};
      }
      assert f.released * done == f.released * t0.Keys;
      SurvivorsRestrict(t0, f.released);
      SurvivorsValid(t0, input.mouseBody, input.owner, f.released);
    }
  }
}
