/** The 9-element controller input built from the three raw error windows:
    x and y errors are clamped to [-100, 100] and divided by 100, angle errors
    are only divided by 100. */
module Normalization {
  import opened Clamping
  import opened ErrorHistory

  /** Raw errors beyond this magnitude saturate on the x and y axes. */
  const ErrorBound: real := 100.0

  /** Length of the controller input vector. */
  const InputLength: nat := 3 * Depth

  /** One x or y entry: `clamp(e, -100, 100) / 100`. */
  function NormalizePosition(e: real): (r: real)
    ensures -1.0 <= r <= 1.0
    ensures -ErrorBound <= e <= ErrorBound ==> r * ErrorBound == e
    ensures e > ErrorBound ==> r == 1.0
    ensures e < -ErrorBound ==> r == -1.0
  {
    Clamp(e, -ErrorBound, ErrorBound) / ErrorBound
  }

  /** One angle entry: `e / 100`, with no clamp. */
  function NormalizeAngle(e: real): (r: real)
    ensures r * ErrorBound == e
  {
    e / ErrorBound
  }

  /** `input_x + input_y + input_angle`: the x window, then the y window, then the
      angle window, each newest first. */
  function InputVector(xs: seq<real>, ys: seq<real>, angles: seq<real>): (v: seq<real>)
    requires |xs| == Depth && |ys| == Depth && |angles| == Depth
    ensures |v| == InputLength
    ensures forall i :: 0 <= i < Depth ==> v[i] == NormalizePosition(xs[i])
    ensures forall i :: 0 <= i < Depth ==> v[Depth + i] == NormalizePosition(ys[i])
    ensures forall i :: 0 <= i < Depth ==> v[2 * Depth + i] * ErrorBound == angles[i]
    ensures forall i :: 0 <= i < 2 * Depth ==> -1.0 <= v[i] <= 1.0
  {
    seq(Depth, i requires 0 <= i < Depth => NormalizePosition(xs[i]))
    + seq(Depth, i requires 0 <= i < Depth => NormalizePosition(ys[i]))
    + seq(Depth, i requires 0 <= i < Depth => NormalizeAngle(angles[i]))
  }

  /** The asymmetry between the axes: a raw error of 150 saturates to 1.0 on x and
      y but becomes 1.5 on the angle axis. */
  lemma SaturationExamples()
    ensures NormalizePosition(150.0) == 1.0
    ensures NormalizePosition(-150.0) == -1.0
    ensures NormalizeAngle(150.0) == 1.5
  {
  }

  /** The angle entries are not bounded: any target value in the input vector is
      reached by some raw angle error. */
  lemma AngleEntriesUnbounded(xs: seq<real>, ys: seq<real>, target: real)
    requires |xs| == Depth && |ys| == Depth
    ensures InputVector(xs, ys, Filled(target * ErrorBound))[2 * Depth] == target
  {
  }
}
