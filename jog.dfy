/** The jog-key conventions shared by the four interactive positioning loops:
    keys '1'..'5' pick a step of 0.1, 0.5, 1, 5 or 10 mm (key 3, 1 mm, at the
    start), w/s move +/-Y, d/a move +/-X, r/f move +/-Z by one step. */
module Jog {
  import opened Wrappers

  type StepKey = k: int | 1 <= k <= 5 witness 3

  const DefaultStepKey: StepKey := 3

  /** The `step_sizes` table. */
  function StepSize(k: StepKey): (mm: real)
    ensures mm > 0.0
  {
    if k == 1 then 0.1 else if k == 2 then 0.5 else if k == 3 then 1.0 else if k == 4 then 5.0 else 10.0
  }

  /** `int(chr(key))` for the keys '1'..'5'; None for every other key. */
  function StepKeyOf(c: char): (k: Option<StepKey>)
    ensures k.Some? <==> '1' <= c <= '5'
    ensures k.Some? ==> k.value == c as int - '0' as int
  {
    if '1' <= c <= '5' then Some(c as int - '0' as int) else None
  }

  datatype Delta = Delta(dx: real, dy: real, dz: real)

  /** The relative move bound to a w/a/s/d key. */
  function PlanarDelta(c: char, step: real): Option<Delta> {
    if c == 'w' then Some(Delta(0.0, step, 0.0))
    else if c == 's' then Some(Delta(0.0, -step, 0.0))
    else if c == 'a' then Some(Delta(-step, 0.0, 0.0))
    else if c == 'd' then Some(Delta(step, 0.0, 0.0))
    else None
  }

  /** The relative move bound to a w/a/s/d key or to r (Z up) and f (Z down). */
  function AxisDelta(c: char, step: real): Option<Delta> {
    if c == 'r' then Some(Delta(0.0, 0.0, step))
    else if c == 'f' then Some(Delta(0.0, 0.0, -step))
    else PlanarDelta(c, step)
  }

  /** A single axis moves, by exactly one step. */
  predicate OneAxisStep(d: Delta, step: real) {
    || (d.dx in {step, -step} && d.dy == 0.0 && d.dz == 0.0)
    || (d.dy in {step, -step} && d.dx == 0.0 && d.dz == 0.0)
    || (d.dz in {step, -step} && d.dx == 0.0 && d.dy == 0.0)
  }

  /** Every movement key changes one axis by plus or minus one step, and only
      the six keys w/s/a/d/r/f move at all. */
  lemma AxisDeltaOneAxis(c: char, step: real)
    ensures AxisDelta(c, step).Some? <==> c in "wsadrf"
    ensures AxisDelta(c, step).Some? ==> OneAxisStep(AxisDelta(c, step).value, step)
    ensures PlanarDelta(c, step).Some? ==> AxisDelta(c, step).value.dz == 0.0
  {
  }
}
