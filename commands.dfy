/** The operator's discrete commands: A/D move the target 150 units along x,
    W/S move it 150 units along y, R negates the `reverse` flag (which no control
    computation reads), and a quit event ends the loop after the current tick. */
module Commands {

  /** How far one key press moves the target. */
  const TargetStep: real := 150.0

  datatype Key = KeyA | KeyD | KeyW | KeyS | KeyR | OtherKey
  datatype Event = QuitEvent | KeyDown(key: Key) | OtherEvent

  /** `target_position` and the `reverse` flag. */
  datatype Target = Target(x: real, y: real, reverse: int)

  /** The effect of one key press. */
  function OnKey(t: Target, k: Key): (r: Target)
    ensures k == KeyA ==> r == t.(x := t.x - TargetStep)
    ensures k == KeyD ==> r == t.(x := t.x + TargetStep)
    ensures k == KeyW ==> r == t.(y := t.y - TargetStep)
    ensures k == KeyS ==> r == t.(y := t.y + TargetStep)
    ensures k == KeyR ==> r == t.(reverse := -t.reverse)
    ensures k == OtherKey ==> r == t
  {
    match k
    case KeyA => Target(t.x - TargetStep, t.y, t.reverse)
    case KeyD => Target(t.x + TargetStep, t.y, t.reverse)
    case KeyW => Target(t.x, t.y - TargetStep, t.reverse)
    case KeyS => Target(t.x, t.y + TargetStep, t.reverse)
    case KeyR => Target(t.x, t.y, -t.reverse)
    case OtherKey => t
  }

  /** Only key presses change the target. */
  function OnEvent(t: Target, ev: Event): (r: Target)
    ensures ev.KeyDown? ==> r == OnKey(t, ev.key)
    ensures !ev.KeyDown? ==> r == t
  {
    if ev.KeyDown? then OnKey(t, ev.key) else t
  }

  /** The target after handling `events` in order. */
  function AfterEvents(t: Target, events: seq<Event>): (r: Target)
    ensures r.reverse == t.reverse || r.reverse == -t.reverse
    ensures (forall i :: 0 <= i < |events| ==> !events[i].KeyDown?) ==> r == t
    decreases |events|
  {
    if events == [] then t
    else OnEvent(AfterEvents(t, events[..|events| - 1]), events[|events| - 1])
  }

  /** Number of presses of key `k` among `events`. */
  function Presses(events: seq<Event>, k: Key): nat
    decreases |events|
  {
    if events == [] then 0
    else Presses(events[..|events| - 1], k) + (if events[|events| - 1] == KeyDown(k) then 1 else 0)
  }

  /** The target after a burst of events depends only on how often each key was
      pressed: x moves by 150 per D minus 150 per A, y by 150 per S minus 150 per
      W, and `reverse` flips once per R. */
  lemma {:induction false} AfterEventsCounts(t: Target, events: seq<Event>)
    ensures AfterEvents(t, events).x
              == t.x + TargetStep * (Presses(events, KeyD) as real - Presses(events, KeyA) as real)
    ensures AfterEvents(t, events).y
              == t.y + TargetStep * (Presses(events, KeyS) as real - Presses(events, KeyW) as real)
    ensures AfterEvents(t, events).reverse
              == if Presses(events, KeyR) % 2 == 0 then t.reverse else -t.reverse
    decreases |events|
  {
    if events != [] {
      AfterEventsCounts(t, events[..|events| - 1]);
    }
  }

  /** Opposite keys undo each other, and R twice restores the flag. */
  lemma KeysUndo(t: Target)
    ensures OnKey(OnKey(t, KeyA), KeyD) == t && OnKey(OnKey(t, KeyD), KeyA) == t
    ensures OnKey(OnKey(t, KeyW), KeyS) == t && OnKey(OnKey(t, KeyS), KeyW) == t
    ensures OnKey(OnKey(t, KeyR), KeyR) == t
  {
  }
}
