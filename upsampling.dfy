/**
 * Zero-stuffing, the first half of the upsampling that the true-peak
 * meter (Source/true_peak_meter.cpp) and the rate converter
 * (Source/rate_converter.cpp) perform before their interpolation filter:
 * every original sample is followed by `rate - 1` zeros.
 */
module Upsampling {
  import opened Numeric

  /** A run of n zero samples. */
  function Zeros(n: nat): (z: seq<real>)
    ensures |z| == n && forall i :: 0 <= i < n ==> z[i] == 0.0
  {
    seq(n, i => 0.0)
  }

  /** The zero-stuffed signal, one block of `rate` samples per original sample. */
  function Stuffed(s: seq<real>, rate: nat): seq<real>
    requires rate > 0
  {
    if s == [] then [] else Stuffed(s[..|s| - 1], rate) + [s[|s| - 1]] + Zeros(rate - 1)
  }

  /** Index j lies in block j / rate, at offset j % rate; it is the head of block k exactly when j == k * rate. */
  lemma BlockHead(j: int, rate: nat, k: int)
    requires rate > 0
    ensures (j % rate == 0 && j / rate == k) <==> j == k * rate
  {
    if j == k * rate {
      UniqueDivision(j, rate, k, 0);
    }
  }

  lemma {:induction false} StuffedLength(s: seq<real>, rate: nat)
    requires rate > 0
    ensures |Stuffed(s, rate)| == |s| * rate
  {
    if s != [] {
      StuffedLength(s[..|s| - 1], rate);
      assert |s| * rate == (|s| - 1) * rate + rate;
    }
  }

  /** k < n means block k ends before block n starts. */
  lemma BlockBefore(k: int, n: int, rate: nat)
    requires rate > 0 && k < n
    ensures k * rate + rate <= n * rate
  {
    MulAtLeast(n - k, rate);
    assert n * rate - k * rate == (n - k) * rate;
  }

  /**
   * The stuffed signal is `rate` times as long; sample k * rate is original
   * sample k and every sample off a block head is 0.
   */
  lemma {:induction false} StuffedSamples(s: seq<real>, rate: nat)
    requires rate > 0
    ensures |Stuffed(s, rate)| == |s| * rate
    ensures forall k :: 0 <= k < |s| ==> Stuffed(s, rate)[k * rate] == s[k]
    ensures forall j :: 0 <= j < |s| * rate && j % rate != 0 ==> Stuffed(s, rate)[j] == 0.0
  {
    StuffedLength(s, rate);
    if s != [] {
      var n := |s| - 1;
      var front := s[..n];
      StuffedSamples(front, rate);
      var f := Stuffed(front, rate);
      var t := Stuffed(s, rate);
      assert t == f + [s[n]] + Zeros(rate - 1);
      assert |f| == n * rate;
      forall k | 0 <= k < |s|
        ensures t[k * rate] == s[k]
      {
        if k < n {
          BlockBefore(k, n, rate);
          assert t[k * rate] == f[k * rate];
        }
      }
      forall j | 0 <= j < |s| * rate && j % rate != 0
        ensures t[j] == 0.0
      {
        if j < n * rate {
          assert t[j] == f[j];
        } else if j == n * rate {
          BlockHead(j, rate, n);
          assert false;
        }
      }
    }
  }

  /** A stuffed signal is determined by its samples: any row with the same block heads and zeros elsewhere is it. */
  lemma StuffedUnique(s: seq<real>, rate: nat, row: seq<real>)
    requires rate > 0 && |row| == |s| * rate
    requires forall k :: 0 <= k < |s| ==> row[k * rate] == s[k]
    requires forall j :: 0 <= j < |row| && j % rate != 0 ==> row[j] == 0.0
    ensures row == Stuffed(s, rate)
  {
    StuffedSamples(s, rate);
    var t := Stuffed(s, rate);
    forall j | 0 <= j < |row|
      ensures row[j] == t[j]
    {
      if j % rate == 0 {
        var k := j / rate;
        DivBelow(j, rate, |s|);
        BlockHead(j, rate, k);
      }
    }
  }

  lemma MulMonotone(a: int, b: int, c: int)
    ensures a <= b && c >= 0 ==> a * c <= b * c
  {
    if a <= b && c >= 0 {
      assert b * c - a * c == (b - a) * c;
    }
  }

  /** An index below n blocks lies in one of the first n blocks. */
  lemma DivBelow(j: int, rate: nat, n: int)
    requires rate > 0 && 0 <= j < n * rate
    ensures 0 <= j / rate < n
  {
    var q := j / rate;
    assert j == q * rate + j % rate && 0 <= j % rate < rate;
    MulMonotone(n, q, rate);
    MulMonotone(q, -1, rate);
  }

  lemma {:induction false} CountBeyondAppend(a: seq<real>, b: seq<real>, threshold: real)
    ensures CountBeyond(a + b, threshold) == CountBeyond(a, threshold) + CountBeyond(b, threshold)
    decreases |b|
  {
    if b == [] {
      assert a + b == a;
    } else {
      var n := |b| - 1;
      CountBeyondAppend(a, b[..n], threshold);
      assert (a + b)[..|a + b| - 1] == a + b[..n];
      assert (a + b)[|a + b| - 1] == b[n];
    }
  }

  lemma {:induction false} NoZeroBeyond(n: nat, threshold: real)
    requires threshold >= 0.0
    ensures CountBeyond(Zeros(n), threshold) == 0
    ensures MaxAbs(Zeros(n)) == 0.0
  {
    if n > 0 {
      NoZeroBeyond(n - 1, threshold);
      assert Zeros(n)[..n - 1] == Zeros(n - 1);
    }
  }

  lemma {:induction false} MaxAbsAppendZeros(a: seq<real>, n: nat)
    ensures MaxAbs(a + Zeros(n)) == MaxAbs(a)
  {
    if n == 0 {
      assert a + Zeros(n) == a;
    } else {
      MaxAbsAppendZeros(a, n - 1);
      MaxAbsIsMaximum(a);
      assert Zeros(n) == Zeros(n - 1) + [0.0];
      assert a + Zeros(n) == (a + Zeros(n - 1)) + [0.0];
      MaxAbsStep(a + Zeros(n - 1), 0.0);
    }
  }

  /**
   * Before the interpolation filter runs, zero-stuffing neither adds nor
   * loses an overflow and keeps the peak: the count beyond any non-negative
   * threshold and the largest magnitude are those of the original samples.
   */
  lemma {:induction false} StuffingKeepsPeaks(s: seq<real>, rate: nat, threshold: real)
    requires rate > 0 && threshold >= 0.0
    ensures CountBeyond(Stuffed(s, rate), threshold) == CountBeyond(s, threshold)
    ensures MaxAbs(Stuffed(s, rate)) == MaxAbs(s)
  {
    if s != [] {
      var n := |s| - 1;
      var front := s[..n];
      var x := s[n];
      StuffingKeepsPeaks(front, rate, threshold);
      var head := Stuffed(front, rate) + [x];
      assert Stuffed(s, rate) == head + Zeros(rate - 1);
      CountBeyondAppend(head, Zeros(rate - 1), threshold);
      CountBeyondAppend(Stuffed(front, rate), [x], threshold);
      NoZeroBeyond(rate - 1, threshold);
      assert s == front + [x];
      CountBeyondAppend(front, [x], threshold);
      MaxAbsAppendZeros(head, rate - 1);
      MaxAbsStep(Stuffed(front, rate), x);
      MaxAbsStep(front, x);
    }
  }
}
