/** The per-tick control loop shared by the two programs. The classical program
    drives the thrusters with the PID controller and redraws the wind every 5 s;
    the learned program feeds the same input vector to a pretrained model and
    redraws the wind every 2 s. Everything else is the same in both. */
module Simulation {
  import opened ErrorHistory
  import opened Normalization
  import opened Pid
  import opened Thrust
  import opened Wind
  import opened Commands

  /** The body's position and angle as the physics engine reports them. */
  datatype Pose = Pose(x: real, y: real, angle: real)

  /** Which of the two programs runs; the learned program carries its model, an
      opaque map from the 9-element input to the two raw thruster outputs. */
  datatype Program = PidEnvironment | AiEnvironment(model: seq<real> -> ThrustPair)

  const Width: real := 800.0
  const Height: real := 600.0

  /** Seconds between wind regenerations. */
  function WindIntervalS(p: Program): (s: nat)
    ensures p.PidEnvironment? ==> s == 5
    ensures p.AiEnvironment? ==> s == 2
  {
    if p.PidEnvironment? then 5 else 2
  }

  /** The thruster commands of one tick, before the ×8000 post-scale. */
  function ControlOutput(p: Program, input: seq<real>): (t: ThrustPair)
    requires |input| == InputLength
    ensures p.PidEnvironment? ==> ThrustMin <= t.left <= ThrustMax && ThrustMin <= t.right <= ThrustMax
    ensures p.PidEnvironment? ==> t == Controller(input)
    ensures p.AiEnvironment? ==> t == p.model(input)
  {
    match p
    case PidEnvironment => Controller(input)
    case AiEnvironment(model) => model(input)
  }

  /** The wind is either the initial calm (0, 0) or a generated vector. */
  predicate WindInRange(fx: int, fy: int)
  {
    (fx == 0 && fy == 0)
    || (fx != 0 && fy != 0 && MinWindForce <= Abs(fx) <= MaxWindForce && MinWindForce <= Abs(fy) <= MaxWindForce)
  }

  /** In the classical program, a body resting on its target with a zero error
      history receives no thrust. */
  lemma AtTargetNoThrust(p: Program)
    requires p.PidEnvironment?
    ensures ControlOutput(p, InputVector(Filled(0.0), Filled(0.0), Filled(0.0))) == ThrustPair(0.0, 0.0)
  {
    var v := InputVector(Filled(0.0), Filled(0.0), Filled(0.0));
    assert v == seq(InputLength, _ => 0.0);
    ZeroErrorZeroThrust();
  }

  class Simulation {
    const program: Program
    const stream: nat -> int
    const windOn: bool
    const targetAngle: real
    const errorsX: array<real>
    const errorsY: array<real>
    const errorsAngle: array<real>
    var targetX: real
    var targetY: real
    var reverse: int
    var running: bool
    var fx: int
    var fy: int
    var startMs: int
    var cursor: nat

    ghost predicate Valid()
      reads this
    {
      && errorsX.Length == Depth && errorsY.Length == Depth && errorsAngle.Length == Depth
      && errorsX != errorsY && errorsX != errorsAngle && errorsY != errorsAngle
      && (reverse == 1 || reverse == -1)
      && Fair(stream) && cursor % 2 == 0
      && WindInRange(fx, fy)
    }

    /** The operator-controlled part of the state. */
    function TargetState(): Target
      reads this
    {
      Target(targetX, targetY, reverse)
    }

    /** Start-up of `main`: target at the screen centre, calm wind, timer started,
        and every window slot filled with the spawn pose's error. The x and y
        windows hold target minus current; the angle window holds current minus
        target, the opposite sign of every later angle sample. */
    constructor Start(p: Program, spawn: Pose, nowMs: int, randomStream: nat -> int)
      requires Fair(randomStream)
      ensures Valid()
      ensures fresh(errorsX) && fresh(errorsY) && fresh(errorsAngle)
      ensures program == p && stream == randomStream && cursor == 0
      ensures windOn && running
      ensures targetX == Width / 2.0 && targetY == Height / 2.0 && targetAngle == 0.0 && reverse == 1
      ensures errorsX[..] == Filled(targetX - spawn.x)
      ensures errorsY[..] == Filled(targetY - spawn.y)
      ensures errorsAngle[..] == Filled(spawn.angle - targetAngle)
      ensures fx == 0 && fy == 0 && startMs == nowMs
    {
      program := p;
      stream := randomStream;
      windOn := true;
      targetAngle := 0.0;
      var wx := NewWindow(Width / 2.0 - spawn.x);
      var wy := NewWindow(Height / 2.0 - spawn.y);
      var wa := NewWindow(spawn.angle - 0.0);
      errorsX, errorsY, errorsAngle := wx, wy, wa;
      targetX, targetY := Width / 2.0, Height / 2.0;
      reverse := 1;
      running := true;
      fx, fy := 0, 0;
      startMs := nowMs;
      cursor := 0;
    }

    /** The event loop at the top of a tick. */
    method HandleEvents(events: seq<Event>)
      requires Valid()
      modifies this`targetX, this`targetY, this`reverse, this`running
      ensures Valid()
      ensures TargetState() == AfterEvents(old(TargetState()), events)
      ensures running == (old(running) && QuitEvent !in events)
    {
      for i := 0 to |events|
        invariant reverse == 1 || reverse == -1
        invariant TargetState() == AfterEvents(old(TargetState()), events[..i])
        invariant running == (old(running) && QuitEvent !in events[..i])
      {
        assert events[..i + 1][..i] == events[..i];
        var ev := events[i];
        if ev == QuitEvent {
          running := false;
        }
        if ev.KeyDown? {
          var k := ev.key;
          if k == KeyR {
            reverse := -reverse;
          }
          if k == KeyA {
            targetX := targetX - TargetStep;
          }
          if k == KeyD {
            targetX := targetX + TargetStep;
          }
          if k == KeyW {
            targetY := targetY - TargetStep;
          }
          if k == KeyS {
            targetY := targetY + TargetStep;
          }
        }
      }
      assert events[..|events|] == events;
    }

    /** The three in-place window pushes of a tick. */
    method PushErrors(pose: Pose)
      requires Valid()
      modifies errorsX, errorsY, errorsAngle
      ensures Valid()
      ensures errorsX[..] == ShiftIn(old(errorsX[..]), targetX - pose.x)
      ensures errorsY[..] == ShiftIn(old(errorsY[..]), targetY - pose.y)
      ensures errorsAngle[..] == ShiftIn(old(errorsAngle[..]), targetAngle - pose.angle)
    {
      Push(errorsX, targetX - pose.x);
      Push(errorsY, targetY - pose.y);
      Push(errorsAngle, targetAngle - pose.angle);
    }

    /** The wind timer. `nowMs` is the clock reading the elapsed time is computed
        from and `resetMs` the later reading the timer is reset to. */
    method WindTick(nowMs: int, resetMs: int)
      requires Valid()
      modifies this`fx, this`fy, this`startMs, this`cursor
      ensures Valid()
      ensures WindDue(nowMs, old(startMs), WindIntervalS(program)) ==>
                && fx != 0 && fy != 0
                && Generated(stream, old(cursor), fx, fy, cursor)
                && startMs == resetMs
      ensures !WindDue(nowMs, old(startMs), WindIntervalS(program)) ==>
                fx == old(fx) && fy == old(fy) && startMs == old(startMs) && cursor == old(cursor)
    {
      if ElapsedSeconds(nowMs, startMs) >= WindIntervalS(program) as real {
        fx, fy, cursor := GenerateForces(stream, cursor);
        startMs := resetMs;
      }
    }

    /** The control half of a tick: the three window pushes, the input vector
        of the new windows and the program's controller on it. */
    method ControlStep(pose: Pose) returns (inputs: seq<real>, thrust: ThrustPair)
      requires Valid()
      modifies errorsX, errorsY, errorsAngle
      ensures Valid()
      ensures errorsX[..] == ShiftIn(old(errorsX[..]), targetX - pose.x)
      ensures errorsY[..] == ShiftIn(old(errorsY[..]), targetY - pose.y)
      ensures errorsAngle[..] == ShiftIn(old(errorsAngle[..]), targetAngle - pose.angle)
      ensures inputs == InputVector(errorsX[..], errorsY[..], errorsAngle[..])
      ensures thrust == ControlOutput(program, inputs)
    {
      PushErrors(pose);
      inputs := InputVector(errorsX[..], errorsY[..], errorsAngle[..]);
      thrust := ControlOutput(program, inputs);
    }

    /** One tick of `main`: events, error windows, input vector, controller,
        ×8000 post-scale onto the two thrusters, wind timer and wind force. The
        returned forces are those handed to the physics engine before it steps.
        The source runs the wind timer after the controller; the two touch
        disjoint state, so running the timer first gives the same outputs. */
    method Tick(events: seq<Event>, pose: Pose, nowMs: int, resetMs: int)
        returns (inputs: seq<real>, thrust: ThrustPair, forces: seq<Force>)
      requires Valid()
      modifies this, errorsX, errorsY, errorsAngle
      ensures Valid()
      ensures TargetState() == AfterEvents(old(TargetState()), events)
      ensures running == (old(running) && QuitEvent !in events)
      ensures errorsX[..] == ShiftIn(old(errorsX[..]), targetX - pose.x)
      ensures errorsY[..] == ShiftIn(old(errorsY[..]), targetY - pose.y)
      ensures errorsAngle[..] == ShiftIn(old(errorsAngle[..]), targetAngle - pose.angle)
      ensures inputs == InputVector(errorsX[..], errorsY[..], errorsAngle[..])
      ensures thrust == ControlOutput(program, inputs)
      ensures WindDue(nowMs, old(startMs), WindIntervalS(program)) ==>
                Generated(stream, old(cursor), fx, fy, cursor) && startMs == resetMs
      ensures !WindDue(nowMs, old(startMs), WindIntervalS(program)) ==>
                fx == old(fx) && fy == old(fy) && startMs == old(startMs) && cursor == old(cursor)
      ensures forces == ThrusterForces(thrust) + WindForces(windOn, fx, fy, Vec(pose.x, pose.y))
    {
      HandleEvents(events);
      WindTick(nowMs, resetMs);
      inputs, thrust := ControlStep(pose);
      forces := ThrusterForces(thrust) + WindForces(windOn, fx, fy, Vec(pose.x, pose.y));
    }
  }
}
