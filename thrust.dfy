/** Conversion of controller commands into the forces handed to the physics
    engine. Forces are recorded as values; applying them is the engine's job. */
module Thrust {
  import opened Pid

  /** Post-scale applied to both controller variants' outputs. */
  const ForceScale: real := 8000.0

  /** Thruster mounting points, in the body's local frame. */
  const LeftMount: real := -50.0
  const RightMount: real := 50.0

  datatype Vec = Vec(x: real, y: real)

  /** A force handed to the engine: either at a point of the body's local frame
      (`apply_force_at_local_point`) or at a world point (`apply_force_at_world_point`). */
  datatype Force = AtLocalPoint(force: Vec, point: Vec) | AtWorldPoint(force: Vec, point: Vec)

  /** The two thruster forces of one tick: each command times 8000, along the
      body's local y axis, the left one at (-50, 0) and the right one at (50, 0). */
  function ThrusterForces(t: ThrustPair): (fs: seq<Force>)
    ensures |fs| == 2
    ensures fs[0].AtLocalPoint? && fs[0].point == Vec(LeftMount, 0.0)
    ensures fs[1].AtLocalPoint? && fs[1].point == Vec(RightMount, 0.0)
    ensures forall i :: 0 <= i < 2 ==> fs[i].force.x == 0.0
    ensures fs[0].force.y / ForceScale == t.left && fs[1].force.y / ForceScale == t.right
  {
    [AtLocalPoint(Vec(0.0, t.left * ForceScale), Vec(LeftMount, 0.0)),
     AtLocalPoint(Vec(0.0, t.right * ForceScale), Vec(RightMount, 0.0))]
  }

  /** The classical controller's forces lie in [-640000, 0]. */
  lemma PidForcesBounded(input: seq<real>)
    requires |input| == 9
    ensures forall f :: f in ThrusterForces(Controller(input)) ==>
              -640000.0 <= f.force.y <= 0.0
  {
    var t := Controller(input);
    var fs := ThrusterForces(t);
    assert fs[0].force.y == t.left * ForceScale;
    assert fs[1].force.y == t.right * ForceScale;
  }

  /** The learned variant's outputs are scaled with no clamp: a raw model output
      of (-100, 5) becomes thruster forces of -800000 and 40000, both outside the
      range of the classical controller. */
  lemma LearnedForcesUnclamped()
    ensures ThrusterForces(ThrustPair(-100.0, 5.0))[0].force.y == -800000.0
    ensures ThrusterForces(ThrustPair(-100.0, 5.0))[1].force.y == 40000.0
  {
  }
}
