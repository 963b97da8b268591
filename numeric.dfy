/** Real-number helpers: ceiling (numpy's ceil followed by int()), floor of a
    quotient, and absolute value; and the non-finite values numpy's float64
    arithmetic produces where Python's own would raise. */
module Numeric {
  import opened Wrappers
  import opened Faults

  function Abs(r: real): (a: real)
    ensures a >= 0.0 && (a == r || a == -r)
  {
    if r < 0.0 then -r else r
  }

  /** The least integer not below `r`. */
  function Ceil(r: real): (n: int)
    ensures n as real >= r && (n - 1) as real < r
  {
    if r.Floor as real == r then r.Floor else r.Floor + 1
  }

  /** The non-negative part of an integer: how many times `range(n)` iterates. */
  function NatPart(n: int): (m: nat)
    ensures n >= 0 ==> m == n
    ensures n < 0 ==> m == 0
  {
    if n < 0 then 0 else n
  }

  /** Ceil(d / s) steps of length s cover d: the coverage rule of a grid. */
  lemma CeilCovers(d: real, s: real)
    requires s > 0.0
    ensures Ceil(d / s) as real * s >= d
    ensures (Ceil(d / s) - 1) as real * s < d
  {
    var n := Ceil(d / s);
    assert n as real >= d / s;
    assert (n - 1) as real < d / s;
    assert (d / s) * s == d;
    MulMonotone(d / s, n as real, s);
    MulStrict((n - 1) as real, d / s, s);
  }

  lemma MulMonotone(a: real, b: real, s: real)
    requires a <= b && s > 0.0
    ensures a * s <= b * s
  {
  }

  lemma MulStrict(a: real, b: real, s: real)
    requires a < b && s > 0.0
    ensures a * s < b * s
  {
  }

  /** `np.arange(start, stop, step)` for a positive step: start, start + step,
      ... and every value below stop, the first one not below it excluded. */
  function Arange(start: real, stop: real, step: real): (s: seq<real>)
    requires step > 0.0
    ensures |s| == NatPart(Ceil((stop - start) / step))
    ensures forall i :: 0 <= i < |s| ==> s[i] == Sample(start, step, i)
    ensures forall i :: 0 <= i < |s| - 1 ==> s[i + 1] - s[i] == step
    ensures forall i :: 0 <= i < |s| ==> start <= s[i] < stop
    ensures start + |s| as real * step >= stop
  {
    var n := NatPart(Ceil((stop - start) / step));
    ArangeBounds(start, stop, step, n);
    seq(n, i requires 0 <= i < n => Sample(start, step, i))
  }

  /** The `i`-th value of an arithmetic progression. */
  function Sample(start: real, step: real, i: nat): real {
    start + i as real * step
  }

  lemma ArangeBounds(start: real, stop: real, step: real, n: nat)
    requires step > 0.0 && n == NatPart(Ceil((stop - start) / step))
    ensures forall i :: 0 <= i < n ==> start <= Sample(start, step, i) < stop
    ensures start + n as real * step >= stop
  {
    var d := stop - start;
    CeilCovers(d, step);
    forall i | 0 <= i < n
      ensures start <= Sample(start, step, i) < stop
    {
      assert n == Ceil(d / step);
      MulMonotone(0.0, i as real, step);
      MulMonotone(i as real, (n - 1) as real, step);
      assert i as real * step < d;
    }
  }

  // ---------------------------------------------------------------------
  // numpy float64 values

  /** A float64 as numpy computes with it: a finite value, an infinity, or
      NaN. The sign of a zero is not kept. */
  datatype Float64 = Finite(v: real) | Infinity(negative: bool) | NaN

  predicate Positive(f: Float64) {
    f.Finite? && f.v > 0.0
  }

  /** numpy's `a / b` for a finite `a`: dividing by zero gives an infinity
      of the numerator's sign (a warning, not an exception), 0/0 gives NaN,
      and a finite number over an infinity is zero. */
  function Quotient(a: real, b: Float64): (q: Float64)
    ensures b.Finite? && b.v != 0.0 ==> q.Finite? && q.v * b.v == a
    ensures b == Finite(0.0) ==> q == if a > 0.0 then Infinity(false) else if a < 0.0 then Infinity(true) else NaN
    ensures b.Infinity? ==> q == Finite(0.0)
    ensures b.NaN? ==> q == NaN
  {
    match b
    case Finite(d) =>
      if d != 0.0 then Finite(a / d)
      else if a > 0.0 then Infinity(false)
      else if a < 0.0 then Infinity(true)
      else NaN
    case Infinity(_) => Finite(0.0)
    case NaN => NaN
  }

  /** numpy's `x * f` for a finite factor: an infinity keeps or flips its
      sign with the factor's, and times zero is NaN. */
  function Scale(x: Float64, f: real): (y: Float64)
    ensures x.Finite? ==> y == Finite(x.v * f)
    ensures x.Infinity? && f > 0.0 ==> y == x
    ensures x.Infinity? && f < 0.0 ==> y == Infinity(!x.negative)
    ensures (x.Infinity? && f == 0.0) || x.NaN? ==> y == NaN
  {
    if x.Finite? then Finite(x.v * f)
    else if x.NaN? || f == 0.0 then NaN
    else if f > 0.0 then x
    else Infinity(!x.negative)
  }

  /** `int(np.ceil(x))`: an infinity is Python's OverflowError, NaN its ValueError. */
  function IntCeil(x: Float64): (r: Result<int, Fault>)
    ensures r.Ok? <==> x.Finite?
    ensures x.Finite? ==> r.value as real >= x.v && (r.value - 1) as real < x.v
    ensures x.Infinity? ==> r == Err(Overflow)
    ensures x.NaN? ==> r == Err(NotANumber)
  {
    match x
    case Finite(r) => Ok(Ceil(r))
    case Infinity(_) => Err(Overflow)
    case NaN => Err(NotANumber)
  }
}
