# Drone stabiliser control loop, modelled in Dafny

This project models the per-tick control arithmetic of the two drone simulation programs: `PID_Environment.py` (discrete PID controller) and `AI_Environment.py` (pretrained regression model). The drone is a planar body with two thrusters and is pushed by a random wind. On each tick the loop does the following:

- handles the operator's key commands,
- shifts the newest tracking errors into three 3-slot, newest-first windows (x, y, angle),
- normalises the windows into a 9-element input vector,
- computes two thruster commands, scales them by 8000 and hands them to the physics engine as forces at local points (-50, 0) and (50, 0),
- every 5 s (PID program) or every 2 s (learned program), replaces the wind with a new rejection-sampled vector, which is applied at the body's position.

The two programs are identical apart from the controller, the wind interval and the PID program's CSV log. The model therefore has one loop, `Simulation.Simulation`, and picks the program with `Simulation.Program`.

Modules, one per component:

- `Clamping` (`clamp.dfy`): `pygame.math.clamp`.
- `ErrorHistory` (`error_history.dfy`): the error windows: the spec functions `Filled`, `ShiftIn` and `PushAll`, plus the in-place array operations `NewWindow` and `Push`, whose `for` loop runs `i = 2, 1` as `range(2, 0, -1)` does.
- `Normalization` (`normalization.dfy`): the input vector.
- `Pid` (`pid.dfy`): the three per-axis laws with the source's gains, differential mixing, and the [-80, 0] clamp.
- `Thrust` (`thrust.dfy`): the ×8000 post-scale and the force records handed to the engine.
- `Wind` (`wind.dfy`): `generateForces` as two rejection loops over an explicit random stream, the elapsed-time test, and `simulate_wind`.
- `Commands` (`commands.dfy`): the A/D/W/S/R keys and quit.
- `Simulation` (`simulation.dfy`): the state of `main` as a class with three `array<real>` windows and the target, flag, wind and timer fields. `Tick` is proved against the spec functions above.

Inputs that the programs get from outside are parameters of the model:

- The body's pose, which the physics engine owns, is a `Pose` parameter.
- `pygame.time.get_ticks()` is read once per tick for the elapsed time (PID_Environment.py:244), and once more, to reset the timer, when the wind is regenerated (line 249). Both readings are parameters (`nowMs`, `resetMs`); `resetMs` is used only in the second case.
- Python's `random` is a stream `nat -> int` with a cursor. The draw of `randint(lo, hi)` at position `p` is `lo + stream(p) % (hi - lo + 1)`.
- The learned model is an arbitrary function from the input vector to two reals, carried by `Program.AiEnvironment`.

Arithmetic is exact over `real`. Forces and times are `int`.

Details the model keeps as the programs have them:

- Both programs multiply the controller's commands by 8000 (PID_Environment.py:236-237, AI_Environment.py:206-207).
- The angle window is initialised with current minus target (PID_Environment.py:180). Every later sample is target minus current (line 221). At the spawn pose (400, 300, angle 0), both conventions give 0.
- The PID laws re-clamp their inputs to [-100, 100] (lines 99 and 106). On the normalised vector this re-clamp does nothing; `Pid.NormalizedInputNotReclamped` proves it.
- With zero error on every axis the PID commands are exactly zero (`Simulation.AtTargetNoThrust`).

## Model

| member | source | states |
|---|---|---|
| `Clamping.Clamp` | PID_Environment.py:125-126 | result within [lo, hi] when lo <= hi; values below lo become lo, above hi become hi, values inside are unchanged |
| `ErrorHistory.Filled` | PID_Environment.py:177-180 | the start-up window has 3 slots, all holding the same sample |
| `ErrorHistory.ShiftIn` | PID_Environment.py:207-221 | one push keeps length 3, puts the new sample in slot 0 and moves slot i-1 to slot i |
| `ErrorHistory.PushAll` | PID_Environment.py:207-221 | repeated pushes keep the window at 3 slots, with the most recent sample in slot 0 |
| `ErrorHistory.ShiftInDiscardsOldest` | PID_Environment.py:208-210 | the oldest slot has no influence on the window after a push |
| `ErrorHistory.PushAllNewestFirst` | PID_Environment.py:207-221 | after any sequence of pushes, slot k holds the k-th most recent sample, or a slot of the starting window while fewer samples were pushed |
| `ErrorHistory.ThreePushes` | PID_Environment.py:177-221 | start-up then pushes s1, s2, s3 give exactly [s3, s2, s1] |
| `ErrorHistory.NewWindow` | AI_Environment.py:147-150 | a fresh array whose contents are the filled window |
| `ErrorHistory.Push` | AI_Environment.py:177-180 | the in-place shift loop and slot-0 write leave the array equal to `ShiftIn` of its old contents |
| `Normalization.NormalizePosition` | PID_Environment.py:223-224 | an x/y entry lies in [-1, 1]; it equals raw/100 inside [-100, 100] and saturates to ±1 beyond |
| `Normalization.NormalizeAngle` | PID_Environment.py:225 | an angle entry is exactly raw/100, with no clamp |
| `Normalization.InputVector` | PID_Environment.py:223-226 | 9 entries: x0..x2, y0..y2, a0..a2, each the matching normalised raw error; the first six lie in [-1, 1] |
| `Normalization.SaturationExamples` | AI_Environment.py:193-195 | a raw 150 gives 1.0 on x/y (and -150 gives -1.0), but 1.5 on the angle axis |
| `Normalization.AngleEntriesUnbounded` | AI_Environment.py:195 | any real value occurs as an angle entry of the input vector |
| `Pid.ClampWindow` | PID_Environment.py:99 | each entry of the window clamped to [-100, 100], length kept |
| `Pid.PidAxis` | PID_Environment.py:100 | the three-term law kp·e0 + ki·(e0+e1+e2) + kd·(e0−e2) weighs the newest slot kp+ki+kd, the middle ki and the oldest ki−kd |
| `Pid.PidX` | PID_Environment.py:98-101 | the x law on the re-clamped window weighs its slots -67/80, -0.5/80 and 64.5/80 (the source's x gains), so its output lies in [-165, 165] |
| `Pid.PidY` | PID_Environment.py:104-109 | the y law on the re-clamped window weighs its slots 525/80, 20/80 and -480/80 (the source's y gains), so its output lies in [-1281.25, 1281.25] |
| `Pid.PidAngle` | PID_Environment.py:112-115 | the angle law on the unclamped window weighs its slots -80, -5 and 63.75 (the source's angle gains); no bound, as there is no clamp |
| `Pid.Mix` | PID_Environment.py:122-123 | left + right = 2·yOut and left − right = 2·(xOut + angleOut), which fix the pair uniquely |
| `Pid.Controller` | PID_Environment.py:117-128 | both outputs lie in [-80, 0]; a mixed value below -80 becomes -80, above 0 becomes 0, inside is unchanged; the slices 0..3, 3..6, 6..9 feed the x, y, angle laws |
| `Pid.DerivativeVanishes` | PID_Environment.py:100 | when e0 = e2 the law reduces to its proportional and integral terms |
| `Pid.XLawExample` | PID_Environment.py:20-22 | with the source's x gains, the window [50, 50, 50] gives exactly -1.875 |
| `Pid.ReclampIsIdentity` | PID_Environment.py:106 | on a window within [-100, 100], the x and y laws equal the unclamped law |
| `Pid.NormalizedInputNotReclamped` | PID_Environment.py:117-119 | on any normalised input vector, the x and y re-clamps change nothing |
| `Pid.SymmetricMixing` | PID_Environment.py:122-123 | with xOut = angleOut = 0, both thrusters get yOut |
| `Pid.ZeroErrorZeroThrust` | PID_Environment.py:117-128 | the all-zero input gives (0, 0) |
| `Thrust.ThrusterForces` | PID_Environment.py:236-240 | two local-point forces along the local y axis, each = command × 8000; left at (-50, 0), right at (50, 0) |
| `Thrust.PidForcesBounded` | PID_Environment.py:236-240 | the PID program's thruster forces lie in [-640000, 0] |
| `Thrust.LearnedForcesUnclamped` | AI_Environment.py:206-210 | the learned outputs are scaled with no clamp: (-100, 5) becomes -800000 and 40000 |
| `Wind.RandInt` | PID_Environment.py:88 | a draw of randint(lo, hi) lies in [lo, hi] |
| `Wind.Attempt` | PID_Environment.py:88 | the sign draw picks the outcome: sign 0 gives 0, sign 1 the magnitude draw, sign -1 its negation |
| `Wind.AttemptValue` | PID_Environment.py:88 | sign × magnitude is zero exactly when the sign is zero; otherwise its absolute value lies in [500, 1000] |
| `Wind.DrawnIsUnique` | PID_Environment.py:85-95 | a rejection loop has exactly one outcome: value and cursor are determined by the stream |
| `Wind.DrawNonZero` | PID_Environment.py:86-89 | from any start where some attempt draws a non-zero sign, the loop exits only on a non-zero draw; the result is non-zero with absolute value in [500, 1000]; it is the first attempt with a non-zero sign, and the cursor has advanced two draws per attempt |
| `Wind.GenerateForces` | AI_Environment.py:75-85 | on a stream with infinitely many non-zero sign draws and an even cursor: fx ≠ 0 and fy ≠ 0, each with absolute value in [500, 1000]; x is drawn first, then y from where x stopped; the cursor stays even |
| `Wind.Magnitude501Run` | PID_Environment.py:85-95 | a run with every sign draw -1 and every magnitude draw 501 satisfies `Wind.Fair`, and `generateForces` on it gives (-501, -501) |
| `Wind.ElapsedSeconds` | PID_Environment.py:244 | the elapsed time in seconds times 1000 is the millisecond difference, and is non-negative when the clock has not gone back |
| `Wind.WindDue` | PID_Environment.py:244-245 | the elapsed-seconds test holds exactly when at least 1000 × interval ms have passed since the timer start |
| `Wind.WindStaysDue` | PID_Environment.py:244-245 | once due at some clock reading, the wind is due at every later reading with the same timer start |
| `Wind.ResetTimerNextDue` | PID_Environment.py:245-249 | right after a reset the wind is not due, and it is due again exactly when 1000 × interval ms have passed since the reset |
| `Wind.WindForces` | PID_Environment.py:80-82 | one world-point force (fx, fy) at the body's position when wind is on, none when it is off |
| `Commands.OnKey` | PID_Environment.py:189-203 | A/D change only target x, by -150/+150; W/S change only target y, by -150/+150; R only negates reverse; other keys change nothing |
| `Commands.OnEvent` | PID_Environment.py:184-203 | a key press acts as that key's command; quit and other events leave the target unchanged |
| `Commands.AfterEvents` | PID_Environment.py:184-203 | after any batch of events reverse is either kept or negated, and a batch with no key presses leaves the target unchanged |
| `Commands.AfterEventsCounts` | AI_Environment.py:158-173 | after a burst of events, x moved by 150·(#D − #A), y by 150·(#S − #W), and reverse flipped once per R |
| `Commands.KeysUndo` | PID_Environment.py:192-203 | A then D, D then A, W then S, S then W, and R twice each restore the target |
| `Simulation.ControlOutput` | AI_Environment.py:90-96 | PID program: exactly `Pid.Controller` of the input, so both commands lie in [-80, 0]; learned program: exactly the model's two outputs |
| `Simulation.WindIntervalS` | PID_Environment.py:245 | the wind interval is 5 s for the PID program and 2 s for the learned program (AI_Environment.py:223) |
| `Simulation.AtTargetNoThrust` | PID_Environment.py:228 | the PID program gives zero thrust on an all-zero error history |
| `Simulation.Simulation.Start` | PID_Environment.py:131-181 | for any stream with infinitely many non-zero sign draws: target (400, 300), angle 0, reverse 1, wind (0, 0), timer started; x/y windows filled with target − spawn, angle window with spawn − target |
| `Simulation.Simulation.HandleEvents` | PID_Environment.py:184-203 | the target becomes `AfterEvents` of the old target; running is cleared exactly when a quit event occurs |
| `Simulation.Simulation.PushErrors` | AI_Environment.py:177-191 | each window becomes ShiftIn of its old contents with target − current (angle: target angle − current angle) |
| `Simulation.Simulation.ControlStep` | PID_Environment.py:207-228 | the windows are pushed with target − current; the input vector is that of the new windows; the thrust is the program's controller on it |
| `Simulation.Simulation.WindTick` | AI_Environment.py:221-228 | when the elapsed time reaches the program's interval (2 s learned, 5 s PID), the wind is regenerated as `generateForces` does and the timer reset; otherwise fx, fy, timer and stream are unchanged |
| `Simulation.Simulation.Tick` | PID_Environment.py:183-253 | one tick: events, pushes with the post-event target, input vector of the new windows, controller of the program, wind timer, and the forces list (two thrusters, then wind if on); reverse feeds none of the outputs. The body runs the timer before the controller, which touches disjoint state |

## Left out

- Physics engine (pymunk): body creation, walls and ceiling, gravity, stepping, and the effect of applied forces. Forces are returned as records. The pose is a parameter.
- End-to-end behaviour over several ticks (whether a body at rest at its target stays there). This needs the physics engine, which is not modelled.
- Rendering and UI: `draw_arrow`, screen, clock, frame-rate limiting and every `print`.
- CSV logging (PID_Environment.py:230-232): file I/O.
- The learned model's loading and inference (AI_Environment.py:88-96): a foreign call, so the model is an arbitrary function parameter.
- IEEE floating-point rounding: arithmetic is exact over `real`.
- Python's random generator: replaced by an explicit stream, reduced into each requested range. Uniformity is not modelled.
- `Wind.DrawNonZero` is proved for a loop start from which some attempt draws a non-zero sign, and `Wind.GenerateForces` and `Simulation.Simulation` for streams with infinitely many non-zero sign draws (`Wind.Fair`, which constrains only the even positions where loops start). On a stream with finitely many, some rejection loop never ends if the wind is regenerated often enough. A run that quits before reaching that loop is still excluded from the model. Python's generator produces infinitely many non-zero signs with probability 1, which the model does not state.
- `modelCorrection` (AI_Environment.py:139): assigned and never read, so it has no counterpart in the model.
- `wind_on`: constantly true in both programs. The model keeps it as a constant field, and `Wind.WindForces` covers both values.
