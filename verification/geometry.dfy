/**
  Exact polar geometry of the chart. Angles are measured in full turns
  (1.0 is 2π radians), so that the evenly spaced axis angles are exact
  fractions i/N instead of floating-point radians.
 */
module Geometry {

  /** The angle of axis i, as a fraction of a full turn. */
  function AxisTurn(i: nat, n: nat): real
    requires i < n
  {
    i as real / n as real
  }

  /** Division by a positive count preserves strict order. */
  lemma DivideStrictlyMonotone(i: nat, j: nat, n: nat)
    requires i < j && 0 < n
    ensures i as real / n as real < j as real / n as real
  {
    var d := (j - i) as real / n as real;
    assert d * n as real == (j - i) as real;
    assert 0.0 < d;
    assert j as real / n as real == i as real / n as real + d;
  }

  /** The angles of n axes: axis i sits at i/n of a full turn. */
  function AxisTurns(n: nat): (r: seq<real>)
    ensures |r| == n
    ensures forall i :: 0 <= i < n ==> r[i] == AxisTurn(i, n)
  {
    seq(n, i requires 0 <= i < n => AxisTurn(i, n))
  }

  /** The axis angles are evenly spaced by 1/n of a turn, start at 0, increase
      strictly and stop short of the full turn. */
  lemma AxisTurnsEvenlySpaced(n: nat)
    ensures n > 0 ==> AxisTurns(n)[0] == 0.0
    ensures forall i :: 0 <= i < n - 1 ==> AxisTurns(n)[i + 1] - AxisTurns(n)[i] == 1.0 / n as real
    ensures forall i, j :: 0 <= i < j < n ==> AxisTurns(n)[i] < AxisTurns(n)[j]
    ensures forall i :: 0 <= i < n ==> 0.0 <= AxisTurns(n)[i] < 1.0
  {
    var r := AxisTurns(n);
    forall i | 0 <= i < n - 1
      ensures r[i + 1] - r[i] == 1.0 / n as real
    {
      assert (i + 1) as real / n as real == i as real / n as real + 1.0 / n as real;
    }
    forall i | 0 <= i < n
      ensures 0.0 <= r[i] < 1.0
    {
      DivideStrictlyMonotone(i, n, n);
    }
    forall i, j | 0 <= i < j < n
      ensures r[i] < r[j]
    {
      DivideStrictlyMonotone(i, j, n);
    }
  }

  /** Closes a per-axis sequence into a loop by repeating its first element:
      the first |s| elements are s itself and the extra last one equals the first. */
  function CloseLoop<T>(s: seq<T>): (r: seq<T>)
    requires |s| > 0
    ensures |r| == |s| + 1
    ensures r[..|s|] == s
    ensures r[|s|] == r[0] == s[0]
  {
    s + [s[0]]
  }

  /** n copies of v. */
  function Repeat<T>(v: T, n: nat): (r: seq<T>)
    ensures |r| == n
    ensures forall i :: 0 <= i < n ==> r[i] == v
  {
    seq(n, _ => v)
  }
}
