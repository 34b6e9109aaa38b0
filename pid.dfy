/** The discrete PID law of the classical program: one three-sample law per axis,
    differential mixing onto the two thrusters, and a one-sided output clamp. */
module Pid {
  import opened Clamping
  import opened ErrorHistory
  import opened Normalization

  datatype Gains = Gains(kp: real, ki: real, kd: real)

  /** The tuned gains of the source (`kp_x = -1.5/80` and so on). */
  const XGains: Gains := Gains(-1.5 / 80.0, -0.5 / 80.0, -65.0 / 80.0)
  const YGains: Gains := Gains(5.0 / 80.0, 20.0 / 80.0, 500.0 / 80.0)
  const AngleGains: Gains := Gains(-500.0 / 80.0, -400.0 / 80.0, -5500.0 / 80.0)

  /** The range a thruster command is clamped to. */
  const ThrustMin: real := -80.0
  const ThrustMax: real := 0.0

  /** A pair of thruster commands, left first. */
  datatype ThrustPair = ThrustPair(left: real, right: real)

  /** The per-axis law on a newest-first window: proportional term on the newest
      sample, the window sum as integral, newest minus oldest as derivative.
      Collected per slot, the newest sample weighs kp + ki + kd, the middle one
      ki and the oldest ki - kd. */
  function PidAxis(g: Gains, e: seq<real>): (out: real)
    requires |e| == Depth
    ensures out == (g.kp + g.ki + g.kd) * e[0] + g.ki * e[1] + (g.ki - g.kd) * e[2]
  {
    g.kp * e[0] + g.ki * (e[0] + e[1] + e[2]) + g.kd * (e[0] - e[2])
  }

  /** The window with every entry clamped to [-100, 100]. */
  function ClampWindow(e: seq<real>): (c: seq<real>)
    requires |e| == Depth
    ensures |c| == Depth
    ensures forall i :: 0 <= i < Depth ==> c[i] == Clamp(e[i], -ErrorBound, ErrorBound)
  {
    seq(Depth, i requires 0 <= i < Depth => Clamp(e[i], -ErrorBound, ErrorBound))
  }

  /** `PID_control_x`: the x law on the re-clamped window. With the x gains the
      slot weights are -67/80, -0.5/80 and 64.5/80, so the output never leaves
      [-165, 165]. */
  function PidX(e: seq<real>): (out: real)
    requires |e| == Depth
    ensures var c := ClampWindow(e);
            out == (-67.0 / 80.0) * c[0] + (-0.5 / 80.0) * c[1] + (64.5 / 80.0) * c[2]
    ensures -165.0 <= out <= 165.0
  {
    PidAxis(XGains, ClampWindow(e))
  }

  /** `PID_control_y`: the y law on the re-clamped window. With the y gains the
      slot weights are 525/80, 20/80 and -480/80, so the output never leaves
      [-1281.25, 1281.25]. */
  function PidY(e: seq<real>): (out: real)
    requires |e| == Depth
    ensures var c := ClampWindow(e);
            out == (525.0 / 80.0) * c[0] + (20.0 / 80.0) * c[1] + (-480.0 / 80.0) * c[2]
    ensures -1281.25 <= out <= 1281.25
  {
    PidAxis(YGains, ClampWindow(e))
  }

  /** `PID_control_angle`: the angle law, with no clamp. With the angle gains the
      slot weights are -80, -5 and 63.75. */
  function PidAngle(e: seq<real>): (out: real)
    requires |e| == Depth
    ensures out == -80.0 * e[0] - 5.0 * e[1] + 63.75 * e[2]
  {
    PidAxis(AngleGains, e)
  }

  /** Differential mixing: y lifts both thrusters equally, x and angle drive them
      in opposite directions. The two equations determine the pair uniquely. */
  function Mix(xOut: real, yOut: real, angleOut: real): (t: ThrustPair)
    ensures t.left + t.right == 2.0 * yOut
    ensures t.left - t.right == 2.0 * (xOut + angleOut)
  {
    ThrustPair(yOut + xOut + angleOut, yOut - xOut - angleOut)
  }

  /** `controller`: the three laws on the slices of the 9-vector, mixed, and each
      thruster command clamped to [ThrustMin, ThrustMax]. */
  function Controller(input: seq<real>): (t: ThrustPair)
    requires |input| == InputLength
    ensures ThrustMin <= t.left <= ThrustMax && ThrustMin <= t.right <= ThrustMax
    ensures var m := Mix(PidX(input[0..3]), PidY(input[3..6]), PidAngle(input[6..9]));
            && (ThrustMin <= m.left <= ThrustMax ==> t.left == m.left)
            && (ThrustMin <= m.right <= ThrustMax ==> t.right == m.right)
            && (m.left < ThrustMin ==> t.left == ThrustMin)
            && (m.right < ThrustMin ==> t.right == ThrustMin)
            && (m.left > ThrustMax ==> t.left == ThrustMax)
            && (m.right > ThrustMax ==> t.right == ThrustMax)
  {
    var m := Mix(PidX(input[0..3]), PidY(input[3..6]), PidAngle(input[6..9]));
    ThrustPair(Clamp(m.left, ThrustMin, ThrustMax), Clamp(m.right, ThrustMin, ThrustMax))
  }

  /** With equal newest and oldest samples the derivative term vanishes. */
  lemma DerivativeVanishes(g: Gains, e: seq<real>)
    requires |e| == Depth && e[0] == e[2]
    ensures PidAxis(g, e) == g.kp * e[0] + g.ki * (e[0] + e[1] + e[2])
  {
  }

  /** The worked value of the x law: a constant window of 50 gives -1.875. */
  lemma XLawExample()
    ensures PidX([50.0, 50.0, 50.0]) == -1.875
  {
    assert ClampWindow([50.0, 50.0, 50.0]) == [50.0, 50.0, 50.0];
  }

  /** The re-clamp inside the x and y laws changes nothing on a window that is
      already within [-100, 100], in particular on a normalized window. */
  lemma {:induction false} ReclampIsIdentity(e: seq<real>)
    requires |e| == Depth
    requires forall i :: 0 <= i < Depth ==> -ErrorBound <= e[i] <= ErrorBound
    ensures PidX(e) == PidAxis(XGains, e)
    ensures PidY(e) == PidAxis(YGains, e)
  {
    assert ClampWindow(e) == e;
  }

  /** On any input built by normalisation, the x and y laws act on the
      normalized entries unchanged. */
  lemma NormalizedInputNotReclamped(xs: seq<real>, ys: seq<real>, angles: seq<real>)
    requires |xs| == Depth && |ys| == Depth && |angles| == Depth
    ensures var v := InputVector(xs, ys, angles);
            PidX(v[0..3]) == PidAxis(XGains, v[0..3]) && PidY(v[3..6]) == PidAxis(YGains, v[3..6])
  {
    var v := InputVector(xs, ys, angles);
    ReclampIsIdentity(v[0..3]);
    ReclampIsIdentity(v[3..6]);
  }

  /** With no x and no angle correction both thrusters receive the y output. */
  lemma SymmetricMixing(yOut: real)
    ensures Mix(0.0, yOut, 0.0).left == yOut && Mix(0.0, yOut, 0.0).right == yOut
  {
  }

  /** Zero error on every axis gives zero output on both thrusters. */
  lemma ZeroErrorZeroThrust()
    ensures Controller(seq(InputLength, _ => 0.0)) == ThrustPair(0.0, 0.0)
  {
    var z := seq(InputLength, _ => 0.0);
    assert z[0..3] == z[3..6] == z[6..9] == [0.0, 0.0, 0.0];
    assert ClampWindow([0.0, 0.0, 0.0]) == [0.0, 0.0, 0.0];
  }
}
