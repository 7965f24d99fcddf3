/**
 * Numeric helpers shared by the K-Meter model.
 *
 * Single-precision floats are modelled as `real`.  The C library's
 * transcendental functions (log10f, powf, sqrt) are not defined here:
 * every member that needs one takes it as a function-valued parameter,
 * and a contract that needs a fact about it asks for that fact about the
 * one value it uses.
 */
module Numeric {

  datatype Option<T> = None | Some(value: T)

  /** Stand-in for log10f. */
  type Log10 = real -> real

  /** Stand-in for powf(base, exponent). */
  type Pow = (real, real) -> real

  /** Stand-in for sqrt. */
  type Sqrt = real -> real

  /** The one fact about sqrt the model relies on: a positive number has a positive root. */
  ghost predicate PositiveRoot(sqrt: Sqrt)
  {
    forall x: real :: x > 0.0 ==> sqrt(x) > 0.0
  }

  function Abs(x: real): (r: real)
    ensures r >= 0.0
    ensures r == x || r == -x
  {
    if x < 0.0 then -x else x
  }

  function Max(a: real, b: real): (r: real)
    ensures r >= a && r >= b
    ensures r == a || r == b
  {
    if a < b then b else a
  }

  function Min(a: int, b: int): (r: int)
    ensures r <= a && r <= b
    ensures r == a || r == b
  {
    if a < b then a else b
  }

  /** The C conversion `int(x)` of a float: truncation toward zero. */
  function Trunc(x: real): (n: int)
    ensures 0.0 <= x ==> 0 <= n && n as real <= x < n as real + 1.0
    ensures x < 0.0 ==> n <= 0 && n as real - 1.0 < x <= n as real
  {
    if x >= 0.0 then x.Floor else -((-x).Floor)
  }

  /** Sum of a sequence of integers. */
  function SumInts(s: seq<int>): int
  {
    if s == [] then 0 else SumInts(s[..|s| - 1]) + s[|s| - 1]
  }

  lemma {:induction false} SumIntsNonNegative(s: seq<int>)
    requires forall i :: 0 <= i < |s| ==> s[i] >= 0
    ensures SumInts(s) >= 0
    ensures forall i :: 0 <= i < |s| ==> SumInts(s) >= s[i]
  {
    if s != [] {
      SumIntsNonNegative(s[..|s| - 1]);
      assert forall i :: 0 <= i < |s| - 1 ==> s[..|s| - 1][i] == s[i];
    }
  }

  /** Integer division is determined by any quotient and remainder that fit. */
  lemma UniqueDivision(x: int, d: nat, q: int, r: int)
    requires d > 0 && x == q * d + r && 0 <= r < d
    ensures x / d == q && x % d == r
  {
    var q' := x / d;
    var r' := x % d;
    assert x == q' * d + r';
    if q' > q {
      assert (q' - q) * d >= d by { MulAtLeast(q' - q, d); }
      assert false;
    } else if q' < q {
      assert (q - q') * d >= d by { MulAtLeast(q - q', d); }
      assert false;
    }
  }

  lemma MulAtLeast(k: int, d: nat)
    requires k >= 1
    ensures k * d >= d
  {
  }

  /** Reducing a ring position before advancing it does not change where it ends. */
  lemma ModAddStep(p: int, m: nat, t: nat)
    requires t > 0
    ensures (p % t + m) % t == (p + m) % t
  {
    UniqueDivision(p % t + m, t, (p % t + m) / t, (p % t + m) % t);
    UniqueDivision(p + m, t, p / t + (p % t + m) / t, (p % t + m) % t);
  }

  /** Advancing a counter modulo l by at most the room left completes at most one wrap. */
  lemma DivModStep(a: nat, m: nat, l: nat)
    requires l > 0 && a % l + m <= l
    ensures (a + m) / l == a / l + (if a % l + m == l then 1 else 0)
    ensures (a + m) % l == (if a % l + m == l then 0 else a % l + m)
  {
    if a % l + m == l {
      UniqueDivision(a + m, l, a / l + 1, 0);
    } else {
      UniqueDivision(a + m, l, a / l, a % l + m);
    }
  }

  /** A sample beyond full scale as a threshold test: below -threshold or above +threshold. */
  predicate Beyond(x: real, threshold: real)
  {
    x < -threshold || x > threshold
  }

  /** The number of samples of `s` beyond the threshold, counted front to back. */
  function CountBeyond(s: seq<real>, threshold: real): (n: nat)
    ensures n <= |s|
  {
    if s == [] then 0 else CountBeyond(s[..|s| - 1], threshold) + (if Beyond(s[|s| - 1], threshold) then 1 else 0)
  }

  /** The positions of the samples of `s` beyond the threshold. */
  function PositionsBeyond(s: seq<real>, threshold: real): set<int>
  {
    set i | 0 <= i < |s| && Beyond(s[i], threshold)
  }

  /** CountBeyond counts exactly the samples beyond the threshold, each once. */
  lemma {:induction false} CountBeyondIsCardinality(s: seq<real>, threshold: real)
    ensures CountBeyond(s, threshold) == |PositionsBeyond(s, threshold)|
  {
    if s == [] {
      assert PositionsBeyond(s, threshold) == {};
    } else {
      var front := s[..|s| - 1];
      CountBeyondIsCardinality(front, threshold);
      var last := |s| - 1;
      assert PositionsBeyond(front, threshold) == set i | 0 <= i < last && Beyond(s[i], threshold);
      if Beyond(s[last], threshold) {
        assert PositionsBeyond(s, threshold) == PositionsBeyond(front, threshold) + {last};
      } else {
        assert PositionsBeyond(s, threshold) == PositionsBeyond(front, threshold);
      }
    }
  }

  /** The largest absolute value in `s`, accumulated front to back; 0 for no samples. */
  function MaxAbs(s: seq<real>): real
  {
    if s == [] then 0.0 else Max(MaxAbs(s[..|s| - 1]), Abs(s[|s| - 1]))
  }

  lemma MaxAbsStep(s: seq<real>, x: real)
    ensures MaxAbs(s + [x]) == Max(MaxAbs(s), Abs(x))
  {
    assert (s + [x])[..|s|] == s;
  }

  /** MaxAbs is the maximum of the absolute values: at least each of them, and one of them (or 0). */
  lemma {:induction false} MaxAbsIsMaximum(s: seq<real>)
    ensures MaxAbs(s) >= 0.0
    ensures forall i :: 0 <= i < |s| ==> Abs(s[i]) <= MaxAbs(s)
    ensures s == [] ==> MaxAbs(s) == 0.0
    ensures s != [] ==> exists i :: 0 <= i < |s| && MaxAbs(s) == Abs(s[i])
  {
    if s != [] {
      var front := s[..|s| - 1];
      MaxAbsIsMaximum(front);
      assert forall i :: 0 <= i < |front| ==> front[i] == s[i];
      if MaxAbs(s) != Abs(s[|s| - 1]) {
        var i :| 0 <= i < |front| && MaxAbs(front) == Abs(front[i]);
        assert MaxAbs(s) == Abs(s[i]);
      }
    }
  }

  /** The sum of the products a[i] * b[i], accumulated front to back. */
  function Dot(a: seq<real>, b: seq<real>): real
    requires |a| == |b|
  {
    if a == [] then 0.0 else Dot(a[..|a| - 1], b[..|b| - 1]) + a[|a| - 1] * b[|b| - 1]
  }

  lemma DotStep(a: seq<real>, b: seq<real>, x: real, y: real)
    requires |a| == |b|
    ensures Dot(a + [x], b + [y]) == Dot(a, b) + x * y
  {
    var a', b' := a + [x], b + [y];
    assert a'[..|a'| - 1] == a && b'[..|b'| - 1] == b;
    assert a'[|a'| - 1] == x && b'[|b'| - 1] == y;
  }

  /** A sum of squares is never negative, and it is 0 for a silent signal. */
  lemma {:induction false} DotSelf(a: seq<real>)
    ensures Dot(a, a) >= 0.0
    ensures (forall i :: 0 <= i < |a| ==> a[i] == 0.0) ==> Dot(a, a) == 0.0
  {
    if a != [] {
      DotSelf(a[..|a| - 1]);
      assert a[|a| - 1] * a[|a| - 1] >= 0.0;
    }
  }
}
