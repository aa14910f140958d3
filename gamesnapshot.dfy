// game.go: an earlier snapshot of the package whose Update puts host toggles
// (exit on F10, CPU profiling on P, vsync on V) in front of the grab
// controller. Its filters, handleGrab, touchInfo and package state are the
// same text as input.go's, so the controller half is Input.Controller.
module GameSnapshot {
  import opened Geometry
  import opened Engine
  import opened Grab
  import opened Input

  /** The key edges Update polls besides the pointer: just-pressed F10, P and V. */
  datatype HostKeys = HostKeys(f10: bool, p: bool, v: bool)

  /** The package's host toggles, and the argument of every SetVsyncEnabled call so far. */
  datatype Host = Host(profiling: bool, vsync: bool, vsyncCalls: seq<bool>)

  /** Both toggles start false and nothing has been passed to SetVsyncEnabled. */
  const InitialHost := Host(false, false, [])

  /** The toggle half of Update on a tick without F10. */
  function Toggled(h: Host, k: HostKeys): (r: Host)
    ensures r.profiling != h.profiling <==> k.p
    ensures r.vsync != h.vsync <==> k.v
    ensures r.vsyncCalls == if k.v then h.vsyncCalls + [h.vsync] else h.vsyncCalls
  {
    var profiled := if k.p then h.(profiling := !h.profiling) else h;
    if k.v then profiled.(vsyncCalls := profiled.vsyncCalls + [profiled.vsync], vsync := !profiled.vsync)
    else profiled
  }

  /** The toggles after a run of ticks, none of which pressed F10. */
  function Run(h: Host, ks: seq<HostKeys>): Host
    decreases |ks|
  {
    if ks == [] then h else Run(Toggled(h, ks[0]), ks[1..])
  }

  function PressesOfP(ks: seq<HostKeys>): nat
    decreases |ks|
  {
    if ks == [] then 0 else (if ks[0].p then 1 else 0) + PressesOfP(ks[1..])
  }

  function PressesOfV(ks: seq<HostKeys>): nat
    decreases |ks|
  {
    if ks == [] then 0 else (if ks[0].v then 1 else 0) + PressesOfV(ks[1..])
  }

  /** Each element of s is the negation of the one before it. */
  predicate Alternates(s: seq<bool>)
  {
    forall i :: 0 < i < |s| ==> s[i] == !s[i - 1]
  }

  /** Over any run, profiling is on exactly when P was pressed an odd number of times more than it started with. */
  lemma {:induction false} RunProfiling(h: Host, ks: seq<HostKeys>)
    ensures Run(h, ks).profiling == (h.profiling != (PressesOfP(ks) % 2 == 1))
    decreases |ks|
  {
    if ks != [] {
      RunProfiling(Toggled(h, ks[0]), ks[1..]);
    }
  }

  /**
   * Over any run, SetVsyncEnabled is called once per V press, and the calls
   * alternate, each passing the opposite of the one before and of the vsync
   * flag that follows.
   */
  lemma {:induction false} RunVsync(h: Host, ks: seq<HostKeys>)
    requires Alternates(h.vsyncCalls + [h.vsync])
    ensures |Run(h, ks).vsyncCalls| == |h.vsyncCalls| + PressesOfV(ks)
    ensures Alternates(Run(h, ks).vsyncCalls + [Run(h, ks).vsync])
    ensures h.vsyncCalls + [h.vsync] <= Run(h, ks).vsyncCalls + [Run(h, ks).vsync]
    decreases |ks|
  {
    if ks != [] {
      var h' := Toggled(h, ks[0]);
      if ks[0].v {
        AlternatesSnoc(h.vsyncCalls + [h.vsync], !h.vsync);
        assert h'.vsyncCalls + [h'.vsync] == (h.vsyncCalls + [h.vsync]) + [!h.vsync];
      } else {
        assert h'.vsyncCalls + [h'.vsync] == h.vsyncCalls + [h.vsync];
      }
      RunVsync(h', ks[1..]);
    }
  }

  lemma AlternatesSnoc(s: seq<bool>, b: bool)
    requires Alternates(s) && |s| > 0 && b == !s[|s| - 1]
    ensures Alternates(s + [b])
  {
    forall i | 0 < i < |s + [b]|
      ensures (s + [b])[i] == !(s + [b])[i - 1]
    {
      if i < |s| {
        assert (s + [b])[i] == s[i] && (s + [b])[i - 1] == s[i - 1];
      }
    }
  }

  /**
   * From start-up, the first V press passes false to SetVsyncEnabled, and
   * afterwards the flag is always the negation of the last value passed.
   */
  lemma VsyncFromStart(ks: seq<HostKeys>)
    ensures var r := Run(InitialHost, ks);
      && |r.vsyncCalls| == PressesOfV(ks)
      && (|r.vsyncCalls| > 0 ==> r.vsyncCalls[0] == false && r.vsync == !r.vsyncCalls[|r.vsyncCalls| - 1])
      && r.profiling == (PressesOfP(ks) % 2 == 1)
  {
    RunProfiling(InitialHost, ks);
    RunVsync(InitialHost, ks);
    var r := Run(InitialHost, ks);
    var s := r.vsyncCalls + [r.vsync];
    if |r.vsyncCalls| > 0 {
      assert s[|s| - 1] == !s[|s| - 2];
      AlternatesFromFirst(s);
      assert s[0] == r.vsyncCalls[0];
      assert |s| - 1 == |r.vsyncCalls|;
    }
  }

  /** In an alternating sequence, elements an even distance apart are equal. */
  lemma AlternatesFromFirst(s: seq<bool>)
    requires Alternates(s) && |s| > 0
    ensures forall i :: 0 <= i < |s| ==> s[i] == (s[0] != (i % 2 == 1))
  {
    forall i | 0 <= i < |s|
      ensures s[i] == (s[0] != (i % 2 == 1))
    {
      AlternatesAt(s, i);
    }
  }

  lemma {:induction false} AlternatesAt(s: seq<bool>, i: nat)
    requires Alternates(s) && i < |s|
    ensures s[i] == (s[0] != (i % 2 == 1))
    decreases i
  {
    if i > 0 {
      AlternatesAt(s, i - 1);
    }
  }

  class Game {
    var profiling: bool
    var vsync: bool
    /** What SetVsyncEnabled was called with, in order. */
    var vsyncCalls: seq<bool>
    /** mouseBody, mouseJoint and touches of this snapshot. */
    const controller: Controller

    function HostState(): Host
      reads this
    {
      Host(profiling, vsync, vsyncCalls)
    }

    constructor ()
      ensures HostState() == InitialHost && controller.Valid() && fresh(controller)
    {
      profiling := false;
      vsync := false;
      vsyncCalls := [];
      controller := new Controller();
    }

    /** The P and V keys of Update: flip profiling; record and flip vsync. */
    method Toggle(keys: HostKeys)
      modifies this
      ensures HostState() == Toggled(old(HostState()), keys)
    {
      if keys.p {
        profiling := !profiling;
      }
      if keys.v {
        vsyncCalls := vsyncCalls + [vsync];
        vsync := !vsync;
      }
    }

    /**
     * Update: F10 exits before anything else happens; otherwise P flips
     * profiling, V passes the current vsync flag to SetVsyncEnabled and then
     * flips it, and the pointer-drag controller runs as UpdateInput does.
     */
    method Update(space: Space, keys: HostKeys, f: Frame) returns (exit: bool, ghost pressed: map<int, TouchInfo>, ghost pressedMouse: Option<Constraint>)
      requires controller.Valid()
      modifies this, controller, space, controller.mouseBody, controller.owner.Keys
      ensures exit == keys.f10
      ensures exit ==> HostState() == old(HostState()) && unchanged(controller, space, controller.mouseBody)
      ensures !exit ==> HostState() == Toggled(old(HostState()), keys)
      ensures controller.Valid()
      ensures !exit && f.mousePressed ==> (pressedMouse.Some? <==> GrabSucceeds(f.mouseQuery))
      ensures !exit && f.mousePressed && pressedMouse.Some? ==>
        fresh(pressedMouse.value) && GrabbedBy(pressedMouse.value, f.mouseQuery, f.cursor, controller.mouseBody)
      ensures !exit && !f.mousePressed ==> pressedMouse == old(controller.mouseJoint)
      ensures !exit ==> controller.mouseJoint == if pressedMouse.Some? && f.mouseReleased then None else pressedMouse
      ensures !exit ==> pressed.Keys == old(controller.touches).Keys + f.presses.Keys
      ensures !exit ==> forall id :: id in old(controller.touches) && id !in f.presses ==> pressed[id] == old(controller.touches)[id]
      ensures !exit ==> forall id :: id in f.presses ==>
        var t := pressed[id];
        fresh(t.body) && PressedTouch(t, id, f.presses[id]) && (t.joint.Some? ==> fresh(t.joint.value))
      ensures !exit ==> controller.touches == Survivors(pressed, f.released)
      ensures !exit ==> forall id :: id in controller.touches && id in f.presses ==>
        controller.touches[id].body.position == TouchPosition(f, id) && controller.touches[id].body.velocity == Zero
      ensures !exit ==> forall id :: id in controller.touches && id !in f.presses ==>
        && controller.touches[id].body.position == Dragged(old(controller.touches[id].body.position), TouchPosition(f, id))
        && controller.touches[id].body.velocity == DragVelocity(old(controller.touches[id].body.position), TouchPosition(f, id))
      ensures !exit ==> controller.mouseBody.position == Dragged(old(controller.mouseBody.position), f.cursor)
      ensures !exit ==> controller.mouseBody.velocity == DragVelocity(old(controller.mouseBody.position), f.cursor)
      ensures !exit ==> (space.constraints ==
        old(space.constraints)
        + (if f.mousePressed && pressedMouse.Some? then {pressedMouse.value} else {})
        + JointsOf(pressed, f.presses.Keys)
        - DroppedJoints(pressed, f.released)
        - (if pressedMouse.Some? && f.mouseReleased then {pressedMouse.value} else {}))
      ensures space.bodies == old(space.bodies) && space.shapes == old(space.shapes)
      ensures space.pendingRemovals == old(space.pendingRemovals) && space.steps == old(space.steps)
    {
      pressed, pressedMouse := controller.touches, controller.mouseJoint;
      if keys.f10 {
        return true, pressed, pressedMouse;
      }
      Toggle(keys);
      pressed, pressedMouse := controller.UpdateInput(space, f);
      exit := false;
    }
  }
}
