/** The wind disturbance: the rejection-sampled force generator and the timer
    that decides when a new force is drawn.

    Python's global random generator is replaced by an explicit stream of raw
    integers and a cursor into it: the draw at position p of `randint(lo, hi)` is
    `lo + stream(p) % (hi - lo + 1)`, and every draw advances the cursor by one. */
module Wind {
  import Thrust


  const MinWindForce: int := 500
  const MaxWindForce: int := 1000

  function Abs(v: int): int { if v < 0 then -v else v }

  /** `random.randint(lo, hi)` read from position `pos` of the stream. */
  function RandInt(stream: nat -> int, pos: nat, lo: int, hi: int): (r: int)
    requires lo <= hi
    ensures lo <= r <= hi
  {
    lo + stream(pos) % (hi - lo + 1)
  }

  /** The sign drawn by attempt `j` of a rejection loop that starts at `p`; each
      attempt consumes two draws, the sign first and then the magnitude. */
  function SignDraw(stream: nat -> int, p: nat, j: nat): int
  {
    RandInt(stream, p + 2 * j, -1, 1)
  }

  function MagnitudeDraw(stream: nat -> int, p: nat, j: nat): int
  {
    RandInt(stream, p + 2 * j + 1, MinWindForce, MaxWindForce)
  }

  /** The value attempt `j` produces: `randint(-1, 1) * randint(500, 1000)`. */
  function Attempt(stream: nat -> int, p: nat, j: nat): (v: int)
    ensures SignDraw(stream, p, j) == 0 ==> v == 0
    ensures SignDraw(stream, p, j) == 1 ==> v == MagnitudeDraw(stream, p, j)
    ensures SignDraw(stream, p, j) == -1 ==> v == -MagnitudeDraw(stream, p, j)
  {
    SignDraw(stream, p, j) * MagnitudeDraw(stream, p, j)
  }

  /** A stream on which every rejection loop ends. Loops start only at even
      positions (the cursor starts at 0 and every attempt takes two draws), and
      from each of them some later attempt draws a non-zero sign: the run has
      infinitely many non-zero sign draws. The odd positions are magnitude draws
      and are not constrained. */
  ghost predicate Fair(stream: nat -> int)
  {
    forall p: nat :: p % 2 == 0 ==> EventuallyNonZero(stream, p)
  }

  /** Some attempt of a rejection loop starting at `p` draws a non-zero sign. */
  ghost predicate EventuallyNonZero(stream: nat -> int, p: nat)
  {
    exists j: nat :: SignDraw(stream, p, j) != 0
  }

  /** Attempt `j` is the first one from `p` with a non-zero sign. */
  ghost predicate FirstNonZero(stream: nat -> int, p: nat, j: nat)
  {
    SignDraw(stream, p, j) != 0 && forall i: nat :: i < j ==> SignDraw(stream, p, i) == 0
  }

  /** `f` and `next` are what one rejection loop starting at `p` yields: the value
      of the first attempt with a non-zero sign, and the cursor after it. */
  ghost predicate Drawn(stream: nat -> int, p: nat, f: int, next: nat)
  {
    exists j: nat :: FirstNonZero(stream, p, j) && f == Attempt(stream, p, j) && next == p + 2 * (j + 1)
  }

  /** `(fx, fy)` and `next` are what `generateForces` yields from cursor `p`. */
  ghost predicate Generated(stream: nat -> int, p: nat, fx: int, fy: int, next: nat)
  {
    exists mid: nat :: Drawn(stream, p, fx, mid) && Drawn(stream, mid, fy, next)
  }

  /** An attempt's value is zero exactly when its sign is zero; otherwise its
      magnitude lies in [500, 1000]. */
  lemma AttemptValue(stream: nat -> int, p: nat, j: nat)
    ensures Attempt(stream, p, j) == 0 <==> SignDraw(stream, p, j) == 0
    ensures Attempt(stream, p, j) != 0 ==> MinWindForce <= Abs(Attempt(stream, p, j)) <= MaxWindForce
  {
    var s, m := SignDraw(stream, p, j), MagnitudeDraw(stream, p, j);
    assert s == -1 || s == 0 || s == 1;
    if s == 1 {
      assert s * m == m;
    } else if s == -1 {
      assert s * m == -m;
    }
  }

  /** At most one attempt is the first non-zero one, so a rejection loop has a
      single outcome. */
  lemma DrawnIsUnique(stream: nat -> int, p: nat, f: int, next: nat, f': int, next': nat)
    requires Drawn(stream, p, f, next) && Drawn(stream, p, f', next')
    ensures f == f' && next == next'
  {
    var j: nat :| FirstNonZero(stream, p, j) && f == Attempt(stream, p, j) && next == p + 2 * (j + 1);
    var j': nat :| FirstNonZero(stream, p, j') && f' == Attempt(stream, p, j') && next' == p + 2 * (j' + 1);
    assert j == j' by {
      assert j < j' ==> SignDraw(stream, p, j) == 0;
      assert j' < j ==> SignDraw(stream, p, j') == 0;
    }
  }

  /** One rejection loop: `f = 0; while f == 0: f = randint(-1, 1) * randint(500, 1000)`. */
  method DrawNonZero(stream: nat -> int, cursor: nat) returns (f: int, next: nat)
    requires EventuallyNonZero(stream, cursor)
    ensures f != 0 && MinWindForce <= Abs(f) <= MaxWindForce
    ensures Drawn(stream, cursor, f, next)
  {
    ghost var bound: nat :| SignDraw(stream, cursor, bound) != 0;
    ghost var j: nat := 0;
    f, next := 0, cursor;
    while f == 0
      invariant next == cursor + 2 * j
      invariant f == 0 ==> j <= bound && forall i: nat :: i < j ==> SignDraw(stream, cursor, i) == 0
      invariant f != 0 ==> 0 < j && FirstNonZero(stream, cursor, j - 1) && f == Attempt(stream, cursor, j - 1)
      decreases if f == 0 then bound - j + 1 else 0
    {
      var sign := RandInt(stream, next, -1, 1);
      var magnitude := RandInt(stream, next + 1, MinWindForce, MaxWindForce);
      f := sign * magnitude;
      AttemptValue(stream, cursor, j);
      next, j := next + 2, j + 1;
    }
    AttemptValue(stream, cursor, j - 1);
  }

  /** `generateForces`: one rejection loop for x, then one for y. */
  method GenerateForces(stream: nat -> int, cursor: nat) returns (fx: int, fy: int, next: nat)
    requires Fair(stream) && cursor % 2 == 0
    ensures fx != 0 && MinWindForce <= Abs(fx) <= MaxWindForce
    ensures fy != 0 && MinWindForce <= Abs(fy) <= MaxWindForce
    ensures Generated(stream, cursor, fx, fy, next)
    ensures next % 2 == 0
  {
    var mid;
    fx, mid := DrawNonZero(stream, cursor);
    fy, next := DrawNonZero(stream, mid);
  }

  /** A run whose sign draws are all -1 and whose magnitude draws are all 501
      satisfies `Fair`, and `generateForces` from the start of it gives (-501, -501). */
  lemma Magnitude501Run(stream: nat -> int)
    requires forall p: nat :: stream(p) == if p % 2 == 0 then 0 else 1
    ensures Fair(stream)
    ensures Generated(stream, 0, -501, -501, 4)
  {
    forall p: nat | p % 2 == 0
      ensures EventuallyNonZero(stream, p)
    {
      assert SignDraw(stream, p, 0) == -1;
    }
    assert FirstNonZero(stream, 0, 0) && Attempt(stream, 0, 0) == -501;
    assert Drawn(stream, 0, -501, 2);
    assert FirstNonZero(stream, 2, 0) && Attempt(stream, 2, 0) == -501;
    assert Drawn(stream, 2, -501, 4);
  }

  /** Seconds since the timer was last reset: `(now - start) / 1000`. */
  function ElapsedSeconds(nowMs: int, startMs: int): (s: real)
    ensures s * 1000.0 == (nowMs - startMs) as real
    ensures startMs <= nowMs ==> 0.0 <= s
  {
    (nowMs - startMs) as real / 1000.0
  }

  /** The wind is due for regeneration once the elapsed time reaches the
      interval; the comparison in seconds is the same as one in whole milliseconds. */
  predicate WindDue(nowMs: int, startMs: int, intervalS: nat)
    ensures WindDue(nowMs, startMs, intervalS) <==> nowMs - startMs >= 1000 * intervalS
  {
    ElapsedSeconds(nowMs, startMs) >= intervalS as real
  }

  /** Once the wind is due it stays due until the timer is reset. */
  lemma WindStaysDue(nowMs: int, laterMs: int, startMs: int, intervalS: nat)
    requires nowMs <= laterMs
    ensures WindDue(nowMs, startMs, intervalS) ==> WindDue(laterMs, startMs, intervalS)
  {
  }

  /** A timer reset to the current clock reading is not due at that reading,
      and for a positive interval it becomes due exactly `1000 * intervalS` ms later. */
  lemma ResetTimerNextDue(resetMs: int, laterMs: int, intervalS: nat)
    requires 0 < intervalS
    ensures !WindDue(resetMs, resetMs, intervalS)
    ensures WindDue(laterMs, resetMs, intervalS) <==> resetMs + 1000 * intervalS <= laterMs
  {
  }

  /** `simulate_wind`: the wind force at the body's position, only when wind is on. */
  function WindForces(windOn: bool, fx: int, fy: int, position: Thrust.Vec): (fs: seq<Thrust.Force>)
    ensures windOn <==> |fs| == 1
    ensures !windOn ==> fs == []
    ensures windOn ==> fs[0] == Thrust.AtWorldPoint(Thrust.Vec(fx as real, fy as real), position)
  {
    if windOn then [Thrust.AtWorldPoint(Thrust.Vec(fx as real, fy as real), position)] else []
  }
}
