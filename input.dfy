// The pointer-drag controller of input.go: an invisible kinematic mouse body,
// the pivot joint currently pinning a shape to it, and a table of touch
// proxies keyed by touch id, each with its own kinematic body and optional
// joint. Polling Ebiten becomes a Frame value; the nearest-shape query of each
// press becomes part of that value.
module Input {
  import opened Geometry
  import opened Engine
  import opened Grab

  /** A tracked touch: its id, its proxy body, and the joint pinning a shape to it, if any. */
  datatype TouchInfo = TouchInfo(id: int, body: Body, joint: Option<Constraint>)

  /**
   * One tick of polled input: the cursor and its button edges with the grab
   * query at the cursor, the just-pressed touch ids (Ebiten reports each id
   * once) each with the grab query at its position, TouchPosition of the ids
   * still touching, and the just-released touch ids.
   */
  datatype Frame = Frame(
    cursor: Vec, mousePressed: bool, mouseReleased: bool, mouseQuery: QueryInfo,
    presses: map<int, QueryInfo>, touchPos: map<int, Vec>, released: set<int>)

  /** ebiten.TouchPosition: (0, 0) for an id that is not touching. */
  function TouchPosition(f: Frame, id: int): Vec
  {
    if id in f.touchPos then f.touchPos[id] else Zero
  }

  // ---------------------------------------------------------------------
  // Exponential smoothing of a proxy body towards its pointer.

  /** Lerp(old, target, 0.25): a quarter of the way to the pointer. */
  function Dragged(p: Vec, target: Vec): Vec
  {
    Lerp(p, target, 0.25)
  }

  /** (new - old) * 60: the velocity that covers the step in one 1/60 s tick. */
  function DragVelocity(p: Vec, target: Vec): Vec
  {
    Scale(Sub(Dragged(p, target), p), 60.0)
  }

  /**
   * Each tick removes a quarter of the remaining offset, the velocity is 15
   * times the offset and carries the body to its new position in 1/60 s, and
   * a body already on its pointer stays there at rest.
   */
  lemma DragConverges(p: Vec, target: Vec)
    ensures Sub(Dragged(p, target), target) == Scale(Sub(p, target), 0.75)
    ensures DragVelocity(p, target) == Scale(Sub(target, p), 15.0)
    ensures Add(p, Scale(DragVelocity(p, target), 1.0 / 60.0)) == Dragged(p, target)
    ensures Dragged(p, target) == p <==> p == target
    ensures p == target ==> DragVelocity(p, target) == Zero
  {
    var d := Dragged(p, target);
    assert d == Vec(p.x * 0.75 + target.x * 0.25, p.y * 0.75 + target.y * 0.25);
    assert DragVelocity(p, target) == Vec((target.x - p.x) * 15.0, (target.y - p.y) * 15.0);
    if d == p {
      assert d.x == p.x && d.y == p.y;
    }
  }

  /** SetVelocityVector((new - old) * 60) and SetPosition(new) on a proxy. */
  method Drag(b: Body, target: Vec)
    modifies b
    ensures b.position == Dragged(old(b.position), target)
    ensures b.velocity == DragVelocity(old(b.position), target)
    ensures b.rot == old(b.rot)
  {
    var newPoint := Lerp(b.position, target, 0.25);
    b.velocity := Scale(Sub(newPoint, b.position), 60.0);
    b.position := newPoint;
  }

  /** Whether the release loop drops the touch with this id: it holds a joint and was just released. */
  predicate Drops(t: map<int, TouchInfo>, id: int, released: set<int>)
  {
    id in t && id in released && t[id].joint.Some?
  }

  /** The joints of the tracked touches among ids. */
  function JointsOf(t: map<int, TouchInfo>, ids: set<int>): set<Constraint>
  {
    set id | id in ids && id in t && t[id].joint.Some? :: t[id].joint.value
  }

  lemma JointsOfAdd(t: map<int, TouchInfo>, ids: set<int>, id: int, e: TouchInfo)
    requires id !in ids
    ensures JointsOf(t[id := e], ids + {id}) == JointsOf(t, ids) + JointsOf(t[id := e], {id})
    ensures JointsOf(t[id := e], {id}) == if e.joint.Some? then {e.joint.value} else {}
  {
    var u := t[id := e];
    assert JointsOf(u, {id}) == if e.joint.Some? then {e.joint.value} else {};
    forall c | c in JointsOf(u, ids + {id})
      ensures c in JointsOf(t, ids) + JointsOf(u, {id})
    {
      var j :| j in ids + {id} && j in u && u[j].joint.Some? && c == u[j].joint.value;
      if j != id {
        assert j in t && t[j] == u[j];
      }
    }
    forall c | c in JointsOf(t, ids)
      ensures c in JointsOf(u, ids + {id})
    {
      var j :| j in ids && j in t && t[j].joint.Some? && c == t[j].joint.value;
      assert u[j] == t[j];
    }
  }

  /** The joints of the touches the release loop drops. */
  function DroppedJoints(t: map<int, TouchInfo>, released: set<int>): set<Constraint>
  {
    set id | id in t && Drops(t, id, released) :: t[id].joint.value
  }

  /** The table after the release loop: every touch except those it drops. */
  function Survivors(t: map<int, TouchInfo>, released: set<int>): map<int, TouchInfo>
  {
    map id | id in t && !Drops(t, id, released) :: t[id]
  }

  /** Deciding one more id extends the dropped joints by that touch's joint, if it is dropped. */
  lemma DroppedJointsAdd(t: map<int, TouchInfo>, released: set<int>, done: set<int>, id: int)
    requires id in t && id !in done
    ensures DroppedJoints(t, released * (done + {id})) ==
      DroppedJoints(t, released * done) + (if Drops(t, id, released) then {t[id].joint.value} else {})
  {
  }

  /** Deciding one more id removes it from the survivors exactly when the release loop drops it. */
  lemma SurvivorsAdd(t: map<int, TouchInfo>, released: set<int>, done: set<int>, id: int)
    requires id in t && id !in done
    ensures Survivors(t, released * (done + {id})) ==
      if Drops(t, id, released) then Survivors(t, released * done) - {id} else Survivors(t, released * done)
  {
  }

  /** Only the released ids among the table's keys matter to the release loop. */
  lemma SurvivorsRestrict(t: map<int, TouchInfo>, released: set<int>)
    ensures Survivors(t, released * t.Keys) == Survivors(t, released)
    ensures DroppedJoints(t, released * t.Keys) == DroppedJoints(t, released)
  {
  }

  /** A touch with no joint is never dropped; the survivors are exactly the undropped touches. */
  lemma SurvivorsKeep(t: map<int, TouchInfo>, released: set<int>)
    ensures forall id :: id in t && t[id].joint.None? ==> id in Survivors(t, released)
    ensures forall id :: id in t && id !in released ==> id in Survivors(t, released)
    ensures forall id :: id in t ==> (id in Survivors(t, released) <==> !(id in released && t[id].joint.Some?))
  {
  }

  /**
   * A touch proxy as the press phase creates it: filed under its id, a
   * kinematic body, and a joint exactly when the grab succeeds, pinning that
   * body to the queried shape's body (the joint's other settings are those
   * HandleGrab promises).
   */
  predicate PressedTouch(t: TouchInfo, id: int, q: QueryInfo)
  {
    && t.id == id
    && t.body.kind == BodyKind.Kinematic && t.body.mass == Infinity
    && (t.joint.Some? <==> GrabSucceeds(q))
    && (t.joint.Some? ==> q.Hit? && t.joint.value.a == t.body && t.joint.value.b == q.body)
  }

  /** The joint a successful grab creates for this query, position and proxy. */
  ghost predicate GrabbedBy(c: Constraint, q: QueryInfo, pos: Vec, proxy: Body)
    reads c, if q.Hit? then {q.body} else {}
  {
    && q.Hit?
    && c.a == proxy && c.b == q.body && c.kind == GrabPivot(q, pos)
    && c.maxForce == Finite(GrabMaxForce) && c.errorBias == GrabErrorBias
  }

  /**
   * Each entry is filed under its own id, its proxy is not the mouse body,
   * and owner records the proxy as created for that id, so no two entries
   * share a proxy.
   */
  predicate TableValid(t: map<int, TouchInfo>, mouseBody: Body, owner: map<Body, int>)
  {
    forall id :: id in t ==>
      && t[id].id == id && t[id].body != mouseBody
      && t[id].body in owner && owner[t[id].body] == id
  }

  /** The release loop's survivors form a valid table with the same owner record. */
  lemma SurvivorsValid(t: map<int, TouchInfo>, mouseBody: Body, owner: map<Body, int>, released: set<int>)
    requires TableValid(t, mouseBody, owner)
    ensures TableValid(Survivors(t, released), mouseBody, owner)
  {
  }

  /**
   * Where the release loop leaves a proxy that started at start: dragged
   * towards target if it has been dragged, else still at start.
   */
  ghost predicate ProxyPlaced(b: Body, start: Vec, target: Vec, dragged: bool)
    reads b
  {
    if dragged then b.position == Dragged(start, target) && b.velocity == DragVelocity(start, target)
    else b.position == start
  }

  class Controller {
    const mouseBody: Body
    var mouseJoint: Option<Constraint>
    var touches: map<int, TouchInfo>
    /**
     * The id each proxy body was created for. Proxies of ended touches stay
     * recorded, so its keys cover every live proxy.
     */
    ghost var owner: map<Body, int>

    /**
     * Each entry is filed under its own id and no two proxies share a body;
     * the mouse body is not a proxy, and it and every proxy are kinematic
     * bodies of infinite mass, which no grab can pick up.
     */
    ghost predicate Valid()
      reads this
    {
      && TableValid(touches, mouseBody, owner)
      && mouseBody !in owner && mouseBody.mass == Infinity
      && forall b :: b in owner ==> b.mass == Infinity
    }

    /** The package state at start-up: a kinematic mouse body, no joint, no touches. */
    constructor ()
      ensures Valid() && fresh(mouseBody)
      ensures mouseBody.kind == BodyKind.Kinematic && mouseBody.position == Zero
      ensures mouseJoint == None && touches == map[]
    {
      mouseBody := new Body.Kinematic();
      mouseJoint := None;
      touches := map[];
      owner := map[];
    }

    /** A just-pressed mouse button grabs at the cursor; the new result replaces the joint. */
    method PressMouse(space: Space, f: Frame)
      modifies this`mouseJoint, space
      ensures f.mousePressed ==> (mouseJoint.Some? <==> GrabSucceeds(f.mouseQuery))
      ensures f.mousePressed && mouseJoint.Some? ==>
        fresh(mouseJoint.value) && GrabbedBy(mouseJoint.value, f.mouseQuery, f.cursor, mouseBody)
      ensures !f.mousePressed ==> mouseJoint == old(mouseJoint)
      ensures space.constraints ==
        old(space.constraints) + (if f.mousePressed && mouseJoint.Some? then {mouseJoint.value} else {})
      ensures space.bodies == old(space.bodies) && space.shapes == old(space.shapes)
      ensures space.pendingRemovals == old(space.pendingRemovals) && space.steps == old(space.steps)
    {
      if f.mousePressed {
        mouseJoint := HandleGrab(space, f.mouseQuery, f.cursor, mouseBody);
      }
    }

    /** One just-pressed touch: a fresh kinematic proxy at its position, a grab attempt, filed under its id. */
    method PressTouch(space: Space, id: int, q: QueryInfo, pos: Vec)
      requires Valid()
      modifies this`touches, this`owner, space
      ensures Valid() && fresh(owner.Keys - old(owner).Keys)
      ensures id in touches && touches == old(touches)[id := touches[id]]
      ensures var t := touches[id];
        && fresh(t.body) && t.body.position == pos && t.body.velocity == Zero
        && PressedTouch(t, id, q) && (t.joint.Some? ==> fresh(t.joint.value))
      ensures space.constraints == old(space.constraints) + JointsOf(touches, {id})
      ensures space.bodies == old(space.bodies) && space.shapes == old(space.shapes)
      ensures space.pendingRemovals == old(space.pendingRemovals) && space.steps == old(space.steps)
    {
      var body := new Body.Kinematic();
      body.position := pos;
      var joint := HandleGrab(space, q, pos, body);
      touches := touches[id := TouchInfo(id, body, joint)];
      owner := owner[body := id];
      assert JointsOf(touches, {id}) == if joint.Some? then {joint.value} else {};
    }

    /**
     * Where the press loop stands once it has handled the ids in done,
     * starting from table t0 and joints c0: each of them has a new entry,
     * a kinematic proxy at rest at its touch position with the grab's
     * outcome, every other entry of t0 is as it was, and the space holds the
     * new entries' joints besides c0.
     */
    ghost predicate PressedSoFar(space: Space, f: Frame, t0: map<int, TouchInfo>, c0: set<Constraint>, done: set<int>)
      reads this, space, owner.Keys
    {
      && Valid()
      && done <= f.presses.Keys
      && touches.Keys == t0.Keys + done
      && (forall id :: id in t0 && id !in done ==> touches[id] == t0[id])
      && (forall id :: id in done ==>
        && PressedTouch(touches[id], id, f.presses[id])
        && touches[id].body.position == TouchPosition(f, id) && touches[id].body.velocity == Zero)
      && space.constraints == c0 + JointsOf(touches, done)
    }

    /**
     * Each just-pressed touch gets a fresh kinematic proxy at its position and
     * a grab attempt, filed under its id (replacing any earlier entry).
     */
    method PressTouches(space: Space, f: Frame)
      requires Valid()
      modifies this`touches, this`owner, space
      ensures Valid() && fresh(owner.Keys - old(owner).Keys)
      ensures touches.Keys == old(touches).Keys + f.presses.Keys
      ensures forall id :: id in old(touches) && id !in f.presses ==> touches[id] == old(touches)[id]
      ensures forall id :: id in f.presses ==>
        var t := touches[id];
        && fresh(t.body) && t.body.position == TouchPosition(f, id) && t.body.velocity == Zero
        && PressedTouch(t, id, f.presses[id])
        && (t.joint.Some? ==> fresh(t.joint.value))
      ensures space.constraints == old(space.constraints) + JointsOf(touches, f.presses.Keys)
      ensures space.bodies == old(space.bodies) && space.shapes == old(space.shapes)
      ensures space.pendingRemovals == old(space.pendingRemovals) && space.steps == old(space.steps)
    {
      var remaining := f.presses.Keys;
      ghost var done: set<int> := {};
      ghost var t0 := touches;
      while remaining != {}
        invariant remaining !! done && remaining + done == f.presses.Keys
        invariant PressedSoFar(space, f, t0, old(space.constraints), done)
        invariant fresh(owner.Keys - old(owner).Keys)
        invariant forall id :: id in done ==>
          fresh(touches[id].body) && (touches[id].joint.Some? ==> fresh(touches[id].joint.value))
        invariant space.bodies == old(space.bodies) && space.shapes == old(space.shapes)
        invariant space.pendingRemovals == old(space.pendingRemovals) && space.steps == old(space.steps)
        decreases remaining
      {
        ghost var next := SomeMember(remaining);
        var id :| id in remaining;
        PressOne(space, f, id, t0, old(space.constraints), done);
        done := done + {id};
        remaining := remaining - {id};
      }
    }

    /** One turn of the press loop, on a just-pressed id it has not handled yet. */
    method PressOne(space: Space, f: Frame, id: int, ghost t0: map<int, TouchInfo>, ghost c0: set<Constraint>, ghost done: set<int>)
      requires id in f.presses && id !in done
      requires PressedSoFar(space, f, t0, c0, done)
      modifies this`touches, this`owner, space
      ensures PressedSoFar(space, f, t0, c0, done + {id})
      ensures fresh(owner.Keys - old(owner).Keys)
      ensures touches == old(touches)[id := touches[id]]
      ensures fresh(touches[id].body) && (touches[id].joint.Some? ==> fresh(touches[id].joint.value))
      ensures space.bodies == old(space.bodies) && space.shapes == old(space.shapes)
      ensures space.pendingRemovals == old(space.pendingRemovals) && space.steps == old(space.steps)
    {
      PressTouch(space, id, f.presses[id], TouchPosition(f, id));
      JointsOfAdd(old(touches), done, id, touches[id]);
    }

    /**
     * Where the release loop stands once it has decided the ids in done,
     * starting from table t0, owner record owner0, proxy positions p0 and joints
     * c0: the table holds t0's survivors among them, the space has lost
     * their dropped joints, their surviving proxies have been dragged, and
     * every other proxy is where it was.
     */
    ghost predicate ReleasedSoFar(space: Space, f: Frame, t0: map<int, TouchInfo>, owner0: map<Body, int>,
                                  p0: map<int, Vec>, c0: set<Constraint>, done: set<int>)
      reads this, space, owner0.Keys
    {
      && TableValid(t0, mouseBody, owner0)
      && touches == Survivors(t0, f.released * done)
      && space.constraints == c0 - DroppedJoints(t0, f.released * done)
      && forall id :: id in t0 && id in p0 ==>
        ProxyPlaced(t0[id].body, p0[id], TouchPosition(f, id), id in done && !Drops(t0, id, f.released))
    }

    /**
     * The release loop of UpdateInput: a touch holding a joint that was just
     * released loses its joint from the space and leaves the table; every
     * other touch's proxy is dragged towards its touch position.
     */
    method ReleaseOrDrag(space: Space, f: Frame)
      requires Valid()
      modifies this`touches, space, owner.Keys
      ensures Valid()
      ensures touches == Survivors(old(touches), f.released)
      ensures forall id :: id in touches ==>
        && touches[id].body.position == Dragged(old(touches[id].body.position), TouchPosition(f, id))
        && touches[id].body.velocity == DragVelocity(old(touches[id].body.position), TouchPosition(f, id))
      ensures space.constraints == old(space.constraints) - DroppedJoints(old(touches), f.released)
      ensures space.bodies == old(space.bodies) && space.shapes == old(space.shapes)
      ensures space.pendingRemovals == old(space.pendingRemovals) && space.steps == old(space.steps)
    {
      ghost var t0 := touches;
      ghost var owner0 := owner;
      ghost var p0 := map id | id in t0 :: t0[id].body.position;
      ghost var done: set<int> := {};
      var remaining := touches.Keys;
      while remaining != {}
        invariant remaining !! done && remaining + done == t0.Keys
        invariant ReleasedSoFar(space, f, t0, owner0, p0, old(space.constraints), done)
        invariant space.bodies == old(space.bodies) && space.shapes == old(space.shapes)
        invariant space.pendingRemovals == old(space.pendingRemovals) && space.steps == old(space.steps)
        decreases remaining
      {
        ghost var next := SomeMember(remaining);
        var id :| id in remaining;
        ReleaseOrDragOne(space, f, id, t0, owner0, p0, old(space.constraints), done);
        done := done + {id};
        remaining := remaining - {id};
      }
      assert f.released * done == f.released * t0.Keys;
      SurvivorsRestrict(t0, f.released);
      SurvivorsValid(t0, mouseBody, owner, f.released);
      forall id | id in touches
        ensures touches[id].body.position == Dragged(old(touches[id].body.position), TouchPosition(f, id))
        ensures touches[id].body.velocity == DragVelocity(old(touches[id].body.position), TouchPosition(f, id))
      {
        assert touches[id] == t0[id] && !Drops(t0, id, f.released);
        assert ProxyPlaced(t0[id].body, p0[id], TouchPosition(f, id), true);
      }
    }

    /**
     * One turn of the release loop, on an id it has not decided yet: drop the
     * touch if it holds a joint and was just released, else drag its proxy.
     */
    method ReleaseOrDragOne(space: Space, f: Frame, id: int, ghost t0: map<int, TouchInfo>, ghost owner0: map<Body, int>,
                            ghost p0: map<int, Vec>, ghost c0: set<Constraint>, ghost done: set<int>)
      requires TableValid(t0, mouseBody, owner0) && p0.Keys == t0.Keys
      requires id in t0 && id !in done
      requires ReleasedSoFar(space, f, t0, owner0, p0, c0, done)
      modifies this`touches, space, t0[id].body
      ensures ReleasedSoFar(space, f, t0, owner0, p0, c0, done + {id})
      ensures space.bodies == old(space.bodies) && space.shapes == old(space.shapes)
      ensures space.pendingRemovals == old(space.pendingRemovals) && space.steps == old(space.steps)
    {
      assert touches[id] == t0[id];
      var touch := touches[id];
      SurvivorsAdd(t0, f.released, done, id);
      DroppedJointsAdd(t0, f.released, done, id);
      if touch.joint.Some? && id in f.released {
        space.RemoveConstraint(touch.joint.value);
        touches := touches - {id};
      } else {
        Drag(touch.body, TouchPosition(f, id));
      }
      forall j | j in t0 && j in p0
        ensures ProxyPlaced(t0[j].body, p0[j], TouchPosition(f, j), j in done + {id} && !Drops(t0, j, f.released))
      {
        if j != id {
          assert owner0[t0[j].body] != owner0[touch.body];
          assert old(ProxyPlaced(t0[j].body, p0[j], TouchPosition(f, j), j in done && !Drops(t0, j, f.released)));
        }
      }
    }

    /** A just-released button drops the mouse joint, if there is one; nothing else is touched. */
    method ReleaseMouse(space: Space, f: Frame)
      modifies this`mouseJoint, space
      ensures mouseJoint == if old(mouseJoint).Some? && f.mouseReleased then None else old(mouseJoint)
      ensures space.constraints ==
        old(space.constraints) - (if old(mouseJoint).Some? && f.mouseReleased then {old(mouseJoint).value} else {})
      ensures space.bodies == old(space.bodies) && space.shapes == old(space.shapes)
      ensures space.pendingRemovals == old(space.pendingRemovals) && space.steps == old(space.steps)
    {
      if mouseJoint.Some? && f.mouseReleased {
        space.RemoveConstraint(mouseJoint.value);
        mouseJoint := None;
      }
    }

    /** The press half of UpdateInput: the mouse grab, then a proxy for each just-pressed touch. */
    method PressPhase(space: Space, f: Frame)
      requires Valid()
      modifies this`mouseJoint, this`touches, this`owner, space
      ensures Valid() && fresh(owner.Keys - old(owner).Keys)
      ensures f.mousePressed ==> (mouseJoint.Some? <==> GrabSucceeds(f.mouseQuery))
      ensures f.mousePressed && mouseJoint.Some? ==>
        fresh(mouseJoint.value) && GrabbedBy(mouseJoint.value, f.mouseQuery, f.cursor, mouseBody)
      ensures !f.mousePressed ==> mouseJoint == old(mouseJoint)
      ensures touches.Keys == old(touches).Keys + f.presses.Keys
      ensures forall id :: id in old(touches) && id !in f.presses ==> touches[id] == old(touches)[id]
      ensures forall id :: id in f.presses ==>
        var t := touches[id];
        && fresh(t.body) && t.body.position == TouchPosition(f, id) && t.body.velocity == Zero
        && PressedTouch(t, id, f.presses[id])
        && (t.joint.Some? ==> fresh(t.joint.value))
      ensures space.constraints ==
        old(space.constraints)
        + (if f.mousePressed && mouseJoint.Some? then {mouseJoint.value} else {})
        + JointsOf(touches, f.presses.Keys)
      ensures space.bodies == old(space.bodies) && space.shapes == old(space.shapes)
      ensures space.pendingRemovals == old(space.pendingRemovals) && space.steps == old(space.steps)
    {
      PressMouse(space, f);
      PressTouches(space, f);
    }

    /**
     * The release half of UpdateInput: the release loop over the touches, the
     * mouse release, and the mouse body's drag towards the cursor.
     */
    method ReleasePhase(space: Space, f: Frame)
      requires Valid()
      modifies this`mouseJoint, this`touches, space, mouseBody, owner.Keys
      ensures Valid()
      ensures touches == Survivors(old(touches), f.released)
      ensures forall id :: id in touches ==>
        && touches[id].body.position == Dragged(old(touches[id].body.position), TouchPosition(f, id))
        && touches[id].body.velocity == DragVelocity(old(touches[id].body.position), TouchPosition(f, id))
      ensures mouseJoint == if old(mouseJoint).Some? && f.mouseReleased then None else old(mouseJoint)
      ensures mouseBody.position == Dragged(old(mouseBody.position), f.cursor)
      ensures mouseBody.velocity == DragVelocity(old(mouseBody.position), f.cursor)
      ensures space.constraints ==
        old(space.constraints)
        - DroppedJoints(old(touches), f.released)
        - (if old(mouseJoint).Some? && f.mouseReleased then {old(mouseJoint).value} else {})
      ensures space.bodies == old(space.bodies) && space.shapes == old(space.shapes)
      ensures space.pendingRemovals == old(space.pendingRemovals) && space.steps == old(space.steps)
    {
      ReleaseOrDrag(space, f);
      ReleaseMouse(space, f);
      Drag(mouseBody, f.cursor);
    }

    /**
     * UpdateInput: grab at a just-pressed cursor, create a proxy for each
     * just-pressed touch, drop released touches that hold a joint and drag the
     * rest, drop the mouse joint on release, and drag the mouse body. The
     * ghost results are the touch table and the mouse joint as they stood
     * after the press phase.
     */
    method UpdateInput(space: Space, f: Frame) returns (ghost pressed: map<int, TouchInfo>, ghost pressedMouse: Option<Constraint>)
      requires Valid()
      modifies this, space, mouseBody, owner.Keys
      ensures Valid()
      ensures f.mousePressed ==> (pressedMouse.Some? <==> GrabSucceeds(f.mouseQuery))
      ensures f.mousePressed && pressedMouse.Some? ==>
        fresh(pressedMouse.value) && GrabbedBy(pressedMouse.value, f.mouseQuery, f.cursor, mouseBody)
      ensures !f.mousePressed ==> pressedMouse == old(mouseJoint)
      ensures mouseJoint == if pressedMouse.Some? && f.mouseReleased then None else pressedMouse
      ensures pressed.Keys == old(touches).Keys + f.presses.Keys
      ensures forall id :: id in old(touches) && id !in f.presses ==> pressed[id] == old(touches)[id]
      ensures forall id :: id in f.presses ==>
        var t := pressed[id];
        fresh(t.body) && PressedTouch(t, id, f.presses[id]) && (t.joint.Some? ==> fresh(t.joint.value))
      ensures touches == Survivors(pressed, f.released)
      ensures forall id :: id in touches && id in f.presses ==>
        touches[id].body.position == TouchPosition(f, id) && touches[id].body.velocity == Zero
      ensures forall id :: id in touches && id !in f.presses ==>
        && touches[id].body.position == Dragged(old(touches[id].body.position), TouchPosition(f, id))
        && touches[id].body.velocity == DragVelocity(old(touches[id].body.position), TouchPosition(f, id))
      ensures mouseBody.position == Dragged(old(mouseBody.position), f.cursor)
      ensures mouseBody.velocity == DragVelocity(old(mouseBody.position), f.cursor)
      ensures space.constraints ==
        old(space.constraints)
        + (if f.mousePressed && pressedMouse.Some? then {pressedMouse.value} else {})
        + JointsOf(pressed, f.presses.Keys)
        - DroppedJoints(pressed, f.released)
        - (if pressedMouse.Some? && f.mouseReleased then {pressedMouse.value} else {})
      ensures space.bodies == old(space.bodies) && space.shapes == old(space.shapes)
      ensures space.pendingRemovals == old(space.pendingRemovals) && space.steps == old(space.steps)
    {
      PressPhase(space, f);
      pressedMouse := mouseJoint;
      pressed := touches;
      label pressed:
      ReleasePhase(space, f);
      if f.mousePressed && pressedMouse.Some? {
        assert f.mouseQuery.body.mass != Infinity;
        assert unchanged@pressed(f.mouseQuery.body, pressedMouse.value);
      }
      forall id | id in touches
        ensures id in f.presses ==>
          touches[id].body.position == TouchPosition(f, id) && touches[id].body.velocity == Zero
        ensures id !in f.presses ==>
          && touches[id].body.position == Dragged(old(touches[id].body.position), TouchPosition(f, id))
          && touches[id].body.velocity == DragVelocity(old(touches[id].body.position), TouchPosition(f, id))
      {
        var b := pressed[id].body;
        if id in f.presses {
          DragConverges(old@pressed(b.position), TouchPosition(f, id));
        } else {
          assert b == old(touches[id].body) && old@pressed(b.position) == old(b.position);
        }
      }
    }
  }
}
