// The frame counter of draw.go: the package variables currentTime, lastFps,
// frames and fps, updated on every Draw call.

module Fps {
  const NanoToSec: real := 1_000_000_000.0

  /** The counter's variables. */
  datatype Counter = Counter(currentTime: real, lastFps: real, frames: int, fps: int)

  /** Their values at start-up: all zero, since lastFps copies currentTime before any Draw. */
  const Start := Counter(0.0, 0.0, 0, 0)

  /**
   * One Draw call at time now: the frame is counted; once a second or more has
   * passed since the last publication, the count so far becomes fps, the count
   * restarts and now is the new publication time.
   */
  function Tick(c: Counter, now: real): (r: Counter)
    ensures r.currentTime == now
    ensures now - c.lastFps >= 1.0 ==> r.fps == c.frames + 1 && r.frames == 0 && r.lastFps == now
    ensures now - c.lastFps < 1.0 ==> r.fps == c.fps && r.frames == c.frames + 1 && r.lastFps == c.lastFps
  {
    var frames := c.frames + 1;
    if now - c.lastFps >= 1.0 then Counter(now, now, 0, frames) else Counter(now, c.lastFps, frames, c.fps)
  }

  /** A run of Draw calls at the given times, in order. */
  function Run(c: Counter, times: seq<real>): Counter
    decreases |times|
  {
    if times == [] then c else Run(Tick(c, times[0]), times[1..])
  }

  /** The fps values a run of Draw calls publishes, in order. */
  function Published(c: Counter, times: seq<real>): seq<int>
    decreases |times|
  {
    if times == [] then []
    else
      var n := Tick(c, times[0]);
      (if times[0] - c.lastFps >= 1.0 then [n.fps] else []) + Published(n, times[1..])
  }

  function Sum(xs: seq<int>): int
  {
    if xs == [] then 0 else xs[0] + Sum(xs[1..])
  }

  lemma {:induction false} SumAppend(xs: seq<int>, ys: seq<int>)
    ensures Sum(xs + ys) == Sum(xs) + Sum(ys)
  {
    if xs == [] {
      assert xs + ys == ys;
    } else {
      assert (xs + ys)[1..] == xs[1..] + ys;
      SumAppend(xs[1..], ys);
    }
  }

  /**
   * Every Draw call is counted exactly once: the frames pending at the start
   * plus the calls of a run equal what the run publishes plus what is still
   * pending at its end.
   */
  lemma {:induction false} EveryFrameCounted(c: Counter, times: seq<real>)
    ensures c.frames + |times| == Sum(Published(c, times)) + Run(c, times).frames
    decreases |times|
  {
    if times != [] {
      var n := Tick(c, times[0]);
      EveryFrameCounted(n, times[1..]);
      var head := if times[0] - c.lastFps >= 1.0 then [n.fps] else [];
      SumAppend(head, Published(n, times[1..]));
      assert Sum([n.fps]) == n.fps + Sum([]);
    }
  }

  /** The first Draw, whose Unix time is at least a second past zero, publishes 1 frame per second. */
  lemma FirstDrawPublishes(now: real)
    requires now >= 1.0
    ensures Tick(Start, now) == Counter(now, now, 0, 1)
    ensures Published(Start, [now]) == [1]
  {
  }

  /**
   * With clock times that never go backwards, the last publication is never
   * after the current time and the count is never negative.
   */
  lemma {:induction false} RunKeepsOrder(c: Counter, times: seq<real>)
    requires c.lastFps <= c.currentTime && c.frames >= 0
    requires |times| > 0 ==> c.currentTime <= times[0]
    requires forall k :: 0 < k < |times| ==> times[k - 1] <= times[k]
    ensures Run(c, times).lastFps <= Run(c, times).currentTime && Run(c, times).frames >= 0
    decreases |times|
  {
    if times != [] {
      var n := Tick(c, times[0]);
      if |times| > 1 {
        assert times[0] <= times[1];
      }
      RunKeepsOrder(n, times[1..]);
    }
  }

  /** The package variables, as one object that Draw updates in place. */
  class FpsCounter {
    var currentTime: real
    var lastFps: real
    var frames: int
    var fps: int

    constructor ()
      ensures State() == Start
    {
      currentTime, lastFps, frames, fps := 0.0, 0.0, 0, 0;
    }

    function State(): Counter
      reads this
    {
      Counter(currentTime, lastFps, frames, fps)
    }

    /** The counter part of Draw, with the clock reading as Unix nanoseconds. */
    method Draw(unixNano: int)
      modifies this
      ensures State() == Tick(old(State()), unixNano as real / NanoToSec)
    {
      currentTime := unixNano as real / NanoToSec;
      frames := frames + 1;
      if currentTime - lastFps >= 1.0 {
        fps := frames;
        frames := 0;
        lastFps := currentTime;
      }
    }
  }
}
