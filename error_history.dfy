/** The three-slot, newest-first error windows `errors_x`, `errors_y` and
    `errors_angle` of both simulation programs. Slot 0 holds the newest sample. */
module ErrorHistory {

  /** Number of samples kept per axis. */
  const Depth: nat := 3

  /** All slots hold the same sample: the state right after start-up. */
  function Filled(e: real): (w: seq<real>)
    ensures |w| == Depth
    ensures forall i :: 0 <= i < |w| ==> w[i] == e
  {
    [e, e, e]
  }

  /** The window after one push: the new sample in slot 0, every older sample one
      slot further back, the oldest discarded. */
  function ShiftIn(w: seq<real>, e: real): (r: seq<real>)
    requires |w| == Depth
    ensures |r| == Depth
    ensures r[0] == e
    ensures forall i :: 1 <= i < Depth ==> r[i] == w[i - 1]
  {
    [e] + w[..Depth - 1]
  }

  /** The window after pushing `samples` in order, oldest first. */
  function PushAll(w: seq<real>, samples: seq<real>): (r: seq<real>)
    requires |w| == Depth
    ensures |r| == Depth
    ensures samples != [] ==> r[0] == samples[|samples| - 1]
    decreases |samples|
  {
    if samples == [] then w
    else ShiftIn(PushAll(w, samples[..|samples| - 1]), samples[|samples| - 1])
  }

  /** The oldest sample has no influence on the window after a push. */
  lemma ShiftInDiscardsOldest(w: seq<real>, z: real, e: real)
    requires |w| == Depth
    ensures ShiftIn(w, e) == ShiftIn(w[..Depth - 1] + [z], e)
  {
  }

  /** After any sequence of pushes, slot k holds the k-th most recent sample, or,
      while fewer than k + 1 samples were pushed, a slot of the starting window. */
  lemma {:induction false} PushAllNewestFirst(w: seq<real>, samples: seq<real>, k: nat)
    requires |w| == Depth && k < Depth
    ensures PushAll(w, samples)[k] ==
              if k < |samples| then samples[|samples| - 1 - k] else w[k - |samples|]
    decreases |samples|
  {
    if samples != [] && k > 0 {
      PushAllNewestFirst(w, samples[..|samples| - 1], k - 1);
    }
  }

  /** Starting from any filled window, three pushes s1, s2, s3 leave [s3, s2, s1]. */
  lemma ThreePushes(e: real, s1: real, s2: real, s3: real)
    ensures PushAll(Filled(e), [s1, s2, s3]) == [s3, s2, s1]
  {
    var r := PushAll(Filled(e), [s1, s2, s3]);
    PushAllNewestFirst(Filled(e), [s1, s2, s3], 0);
    PushAllNewestFirst(Filled(e), [s1, s2, s3], 1);
    PushAllNewestFirst(Filled(e), [s1, s2, s3], 2);
    assert r == [r[0], r[1], r[2]];
  }

  /** A fresh window holding `e` in every slot: `[e, e, e]` in the source. */
  method NewWindow(e: real) returns (w: array<real>)
    ensures fresh(w)
    ensures w[..] == Filled(e)
  {
    w := new real[Depth];
    w[0], w[1], w[2] := e, e, e;
  }

  /** The in-place push of the source: `for i in range(2, 0, -1): w[i] = w[i - 1]`
      followed by `w[0] = e`. */
  method Push(w: array<real>, e: real)
    requires w.Length == Depth
    modifies w
    ensures w[..] == ShiftIn(old(w[..]), e)
  {
    for i := Depth downto 1
      invariant forall k :: i <= k < Depth ==> w[k] == old(w[k - 1])
      invariant forall k :: 0 <= k < i ==> w[k] == old(w[k])
    {
      w[i] := w[i - 1];
    }
    w[0] := e;
  }
}
